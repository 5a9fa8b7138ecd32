/** What the life of a row looks like from the outside, in every interleaving and across crashes. */
module JobHistory {
  import opened Wrappers
  import opened Text
  import opened Schedule
  import opened JobRows
  import opened JobEngine
  import opened JobOwnership

  ghost predicate AllRowsOk(rows: Rows) {
    forall i :: i in rows ==> RowOk(rows[i])
  }

  /** What the engine never does to the table: reuse an id, insert anything but a new pending row,
      report progress on a row the worker does not hold, record a success for one, or claim one that
      is not pending. */
  predicate EffectOk(e: Effect, issued: set<JobId>, held: Option<JobId>) {
    && (e.Insert? ==> e.id !in issued && e.row.status.Pending? && RowOk(e.row))
    && (e.Sql? && (e.st.SetProgress? || e.st.Succeed?) ==> held == Some(e.id))
  }

  lemma EffectsOk(cal: Calendar, s: State, a: Action)
    requires Hold(s)
    ensures EffectOk(EffectOf(cal, s, a), s.issued, Held(s.worker))
  {
    match a {
      case Work(c) => WorkerEffectsOk(cal, s, c);
      case Handle(tid) => if tid in s.handlers { HandlerEffectsOk(s, a); }
      case _ => hide WorkerMove, HandlerMove;
    }
  }

  lemma HandlerEffectsOk(s: State, a: Action)
    requires HandlersOk(s.handlers) && a.Handle? && a.tid in s.handlers
    ensures EffectOk(HandlerMove(s, s.handlers[a.tid]).effect, s.issued, Held(s.worker))
  {
  }

  lemma WorkerEffectsOk(cal: Calendar, s: State, c: Choice)
    requires Hold(s)
    ensures EffectOk(WorkerMove(cal, s, c).effect, s.issued, Held(s.worker))
  {
    hide IsArmed, IsDue, NextTime, CatchUpTime, HasActiveSnapshot, Listing, Entries, IsOldestPending, Fired,
      Resumes, StatusOf, HandlersOk;
  }

  /** One effect keeps the row facts and moves every issued job along its life. */
  lemma RowsAdvance(rows: Rows, issued: set<JobId>, e: Effect, held: Option<JobId>, now: int)
    requires AllRowsOk(rows) && EffectOk(e, issued, held)
    requires held.Some? ==> StatusOf(rows, held.value) != Some(Status.Success)
    requires forall i :: i in rows ==> i in issued
    ensures AllRowsOk(RowsAfter(rows, e, now))
    ensures forall i :: i in issued ==> Later(StatusOf(rows, i), StatusOf(RowsAfter(rows, e, now), i))
    ensures forall i :: i in rows && i in RowsAfter(rows, e, now) ==>
              Follows(rows[i].status, RowsAfter(rows, e, now)[i].status) && rows[i].task == RowsAfter(rows, e, now)[i].task
  {
  }

  ghost predicate History(s: State) {
    Hold(s) && AllRowsOk(s.rows)
  }

  lemma HistoryStep(cal: Calendar, s: State, a: Action)
    requires History(s)
    ensures
      var s' := Step(cal, s, a);
      && History(s')
      && (forall i :: i in s.issued ==> i in s'.issued && Later(StatusOf(s.rows, i), StatusOf(s'.rows, i)))
      && (forall i :: i in s.rows && i in s'.rows ==>
            Follows(s.rows[i].status, s'.rows[i].status) && s.rows[i].task == s'.rows[i].task)
  {
    HoldStep(cal, s, a);
    EffectsOk(cal, s, a);
    StepEffect(cal, s, a);
    RowsAdvance(s.rows, s.issued, EffectOf(cal, s, a), Held(s.worker), s.now);
    hide Step, EffectOf, RowsAfter, Later, Follows, AllRowsOk, EffectOk;
  }

  lemma LaterTrans(a: Option<Status>, b: Option<Status>, c: Option<Status>)
    requires Later(a, b) && Later(b, c)
    ensures Later(a, c)
  {
  }

  lemma {:induction false} HistoryRun(cal: Calendar, s: State, acts: seq<Action>)
    requires History(s)
    ensures
      var e := RunAll(cal, s, acts);
      && History(e)
      && forall i :: i in s.issued ==> i in e.issued && Later(StatusOf(s.rows, i), StatusOf(e.rows, i))
  {
    hide Step, History, Later;
    if acts == [] {
      forall i | i in s.issued ensures Later(StatusOf(s.rows, i), StatusOf(s.rows, i)) {
        LaterRefl(StatusOf(s.rows, i));
      }
    } else {
      var before := RunAll(cal, s, acts[..|acts| - 1]);
      HistoryRun(cal, s, acts[..|acts| - 1]);
      HistoryStep(cal, before, acts[|acts| - 1]);
      var e := RunAll(cal, s, acts);
      forall i | i in s.issued ensures i in e.issued && Later(StatusOf(s.rows, i), StatusOf(e.rows, i)) {
        LaterTrans(StatusOf(s.rows, i), StatusOf(before.rows, i), StatusOf(e.rows, i));
      }
    }
  }

  lemma LaterRefl(a: Option<Status>)
    ensures Later(a, a)
  {
  }

  /** Row facts in every reachable state: finished_at is set exactly for success, failed and cancelled;
      error_message is non-empty exactly for failed; started_at is set for running, success and failed;
      a success is at 100 percent. */
  lemma RowFacts(cal: Calendar, s: State, acts: seq<Action>)
    requires Init(s)
    ensures forall i :: i in RunAll(cal, s, acts).rows ==> RowOk(RunAll(cal, s, acts).rows[i])
  {
    HistoryRun(cal, s, acts);
  }

  /** From any reachable state on: cancelled is absorbing, success and failed can only become cancelled
      or be deleted, and a deleted id never comes back. */
  lemma TerminalStates(cal: Calendar, s: State, acts: seq<Action>, more: seq<Action>, id: JobId)
    requires Init(s) && id in RunAll(cal, s, acts).issued
    ensures Later(StatusOf(RunAll(cal, s, acts).rows, id), StatusOf(RunAll(cal, RunAll(cal, s, acts), more).rows, id))
  {
    HistoryRun(cal, s, acts);
    HistoryRun(cal, RunAll(cal, s, acts), more);
  }

  /** Success is not final, and this is exactly how it is lost: the last statement of a cancel or delete
      handler that read the row before it became a success (or, for delete, after). */
  lemma SuccessIsLost(cal: Calendar, s: State, a: Action, id: JobId)
    requires Hold(s) && StatusOf(s.rows, id) == Some(Status.Success)
    ensures StatusOf(Step(cal, s, a).rows, id) != Some(Status.Success)
            <==> a.Handle? && a.tid in s.handlers && (s.handlers[a.tid] == Put(id, Cancel) || s.handlers[a.tid] == Put(id, Delete))
  {
    StepEffect(cal, s, a);
    if a.Work? {
      WorkerTouchesHeld(cal, s, a.choice);
    } else if a.Handle? && a.tid in s.handlers {
      assert HandlerOk(s.handlers[a.tid]);
    }
    hide Step, WorkerMove, HandlersOk, HoldInv;
  }

  /** A resume is not final either: a pending row goes back to paused exactly by the last statement of a
      pause handler that read the row before, or of the earlier run's own wind-down, which the worker may
      still have to take after the row was resumed. */
  lemma ResumeIsLost(cal: Calendar, s: State, a: Action, id: JobId)
    requires Hold(s) && StatusOf(s.rows, id) == Some(Pending)
    ensures StatusOf(Step(cal, s, a).rows, id) == Some(Paused)
            <==> || (a.Handle? && a.tid in s.handlers && s.handlers[a.tid] == Put(id, Pause))
                 || (a.Work? && s.worker.Finish? && s.worker.id == id && s.worker.st == Pause)
  {
    StepEffect(cal, s, a);
    if a.Work? {
      WorkerPauses(cal, s, a.choice);
    } else if a.Handle? && a.tid in s.handlers {
      assert HandlerOk(s.handlers[a.tid]);
    }
    hide Step, WorkerMove, HandlersOk, HoldInv;
  }

  lemma WorkerPauses(cal: Calendar, s: State, c: Choice)
    requires Hold(s)
    ensures
      var e := WorkerMove(cal, s, c).effect;
      && (e.Sql? && e.st.Pause? <==> s.worker.Finish? && s.worker.st == Pause)
      && (s.worker.Finish? ==> e == Sql(s.worker.id, s.worker.st))
      && (e.Insert? ==> e.id !in s.issued)
  {
    hide IsArmed, IsDue, NextTime, CatchUpTime, HasActiveSnapshot, Listing, Entries, IsOldestPending, Fired,
      Resumes, HandlersOk, StatusOf;
  }

  lemma WorkerTouchesHeld(cal: Calendar, s: State, c: Choice)
    requires Hold(s)
    ensures
      var e := WorkerMove(cal, s, c).effect;
      && (e.Sql? ==> Held(s.worker) == Some(e.id) || (e.st.Claim? && StatusOf(s.rows, e.id) == Some(Pending)))
      && (e.Insert? ==> e.id !in s.issued)
  {
    hide IsArmed, IsDue, NextTime, CatchUpTime, HasActiveSnapshot, Listing, Entries, IsOldestPending, Fired,
      Resumes, HandlersOk;
  }
}
