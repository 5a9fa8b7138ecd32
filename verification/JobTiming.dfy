/** The stale sweep against the clock: it spares every job whose row is written often enough, although
    it reads and updates in separate steps and reads times truncated to a second; and it catches every
    row nobody writes any more. */
module JobTiming {
  import opened Wrappers
  import opened Schedule
  import opened JobRows
  import opened JobEngine

  /** The job's updated_at was last written at most d ago, if it is running. */
  predicate WrittenWithin(s: State, id: JobId, d: int) {
    id in s.rows && s.rows[id].status.Running? ==> s.now - s.rows[id].written <= d
  }

  /** No sweep waits longer than g between listing the rows and taking its cutoff. */
  ghost predicate PromptCutoffs(s: State, g: int) {
    forall t :: t in s.sweeps && s.sweeps[t].Listed? ==> s.now - s.sweeps[t].at <= g
  }

  predicate SparesJob(sw: Sweep, id: JobId, d: int) {
    match sw
    case Listed(items, at) => id in items ==> at - items[id].written <= d
    case Marking(items) => id !in items
    case Wiping(i, _, items) => i != id && id !in items
  }

  ghost predicate Spared(s: State, id: JobId, d: int) {
    && id !in s.log.swept
    && forall t :: t in s.sweeps ==> SparesJob(s.sweeps[t], id, d)
  }

  lemma CutoffSpares(sw: Sweep, id: JobId, d: int, g: int, now: int)
    requires sw.Listed? && SparesJob(sw, id, d) && now - sw.at <= g && d + g + SECOND <= STALE_AFTER
    ensures SparesJob(Marking(StaleRows(sw.items, now)), id, d)
  {
    if id in sw.items {
      StoredIsTruncated(sw.items[id]);
    }
  }

  lemma SparedNext(s: State, tid: Thread, i: JobId, id: JobId, d: int, g: int)
    requires Spared(s, id, d) && PromptCutoffs(s, g) && tid in s.sweeps && d + g + SECOND <= STALE_AFTER
    ensures Spared(PassStep(s, tid, SweepMove(s, s.sweeps[tid], i)), id, d)
  {
    if s.sweeps[tid].Listed? {
      CutoffSpares(s.sweeps[tid], id, d, g, s.now);
    }
    hide StaleRows, RowsAfter, FilesAfter, IssuedAfter, PoolsAfter, RegAfter, AcceptedAfter, ResumesAfter,
      OrphansAfter;
  }

  lemma SparedOther(cal: Calendar, s: State, a: Action, id: JobId, d: int)
    requires Spared(s, id, d) && WrittenWithin(s, id, d) && !a.SweepNext?
    ensures Spared(Step(cal, s, a), id, d)
  {
    WorkerSweepsNothing(cal, s, a);
    hide WorkerMove, HandlerMove, Respond, SweepMove, CanSubmit, RowsAfter, FilesAfter, IssuedAfter, PoolsAfter,
      RegAfter,
      AcceptedAfter, ResumesAfter, OrphansAfter;
  }

  lemma WorkerSweepsNothing(cal: Calendar, s: State, a: Action)
    ensures a.Work? ==> !WorkerMove(cal, s, a.choice).note.StaleFailure?
    ensures a.Ask? && a.id in s.rows ==> !Respond(s.rows[a.id], a.op, a.id).note.StaleFailure?
    ensures a.Handle? && a.tid in s.handlers ==> !HandlerMove(s, s.handlers[a.tid]).note.StaleFailure?
  {
    hide IsArmed, IsDue, NextTime, CatchUpTime, HasActiveSnapshot, Listing, Entries, IsOldestPending, Resumes,
      StatusOf;
  }

  lemma SparedStep(cal: Calendar, s: State, a: Action, id: JobId, d: int, g: int)
    requires Spared(s, id, d) && WrittenWithin(s, id, d) && PromptCutoffs(s, g) && d + g + SECOND <= STALE_AFTER
    ensures Spared(Step(cal, s, a), id, d)
  {
    hide Spared, WrittenWithin, PromptCutoffs, WorkStep, AnswerStep, PassStep, PlainStep, CrashStep,
      HandlerMove, Respond, SweepMove, CanSubmit, RunningRows;
    if a.SweepNext? {
      if a.tid in s.sweeps {
        SparedNext(s, a.tid, a.id, id, d, g);
      }
    } else {
      SparedOther(cal, s, a, id, d);
    }
  }

  /** Timed safety, for one job in any run, crashes included: if in every state along the way a running
      row of the job was written at most d ago and no sweep waits longer than g for its cutoff, and d, g
      and the lost second add up to at most five minutes, then no sweep ever fails the job. */
  lemma {:induction false} LiveJobNeverSwept(cal: Calendar, s: State, acts: seq<Action>, id: JobId, d: int, g: int)
    requires Init(s) && d + g + 1_000_000_000 <= 300_000_000_000
    requires forall k :: 0 <= k <= |acts| ==> WrittenWithin(RunAll(cal, s, acts[..k]), id, d) && PromptCutoffs(RunAll(cal, s, acts[..k]), g)
    ensures Spared(RunAll(cal, s, acts), id, d)
    ensures id !in RunAll(cal, s, acts).log.swept
  {
    if acts != [] {
      var n := |acts| - 1;
      hide Step, WrittenWithin, PromptCutoffs;
      forall k | 0 <= k <= n
        ensures WrittenWithin(RunAll(cal, s, acts[..n][..k]), id, d) && PromptCutoffs(RunAll(cal, s, acts[..n][..k]), g) {
        assert acts[..n][..k] == acts[..k];
      }
      LiveJobNeverSwept(cal, s, acts[..n], id, d, g);
      assert acts[..n] == acts[..|acts| - 1];
      SparedStep(cal, RunAll(cal, s, acts[..n]), acts[n], id, d, g);
    }
  }

  // ---- The other direction ---------------------------------------------------------------------

  /** Steps that leave one sweep where it is. */
  predicate Elsewhere(acts: seq<Action>, tid: Thread) {
    forall i :: 0 <= i < |acts| ==> acts[i] != Crash && !(acts[i].SweepNext? && acts[i].tid == tid)
  }

  lemma SweepWaits1(cal: Calendar, s: State, a: Action, tid: Thread)
    requires tid in s.sweeps && a != Crash && !(a.SweepNext? && a.tid == tid)
    ensures tid in Step(cal, s, a).sweeps && Step(cal, s, a).sweeps[tid] == s.sweeps[tid] && Step(cal, s, a).now >= s.now
  {
    hide WorkerMove, HandlerMove, Respond, SweepMove, CanSubmit, CrashStep, RunningRows, RowsAfter, FilesAfter,
      IssuedAfter, PoolsAfter, RegAfter, LogAfter;
  }

  lemma {:induction false} SweepWaits(cal: Calendar, s: State, acts: seq<Action>, tid: Thread)
    requires tid in s.sweeps && Elsewhere(acts, tid)
    ensures var e := RunAll(cal, s, acts); tid in e.sweeps && e.sweeps[tid] == s.sweeps[tid] && e.now >= s.now
  {
    hide Step;
    if acts != [] {
      SweepWaits(cal, s, acts[..|acts| - 1], tid);
      SweepWaits1(cal, RunAll(cal, s, acts[..|acts| - 1]), acts[|acts| - 1], tid);
    }
  }

  /** A row that is running and whose stored time is at least five minutes old is failed by any sweep
      that starts then, whatever happens between the sweep's own steps, unless it has stopped running
      by the time the sweep's update reaches it. A row left running by a crash is such a row. */
  lemma StaleRowIsFailed(cal: Calendar, s: State, tid: Thread, id: JobId, i: JobId, acts1: seq<Action>, acts2: seq<Action>)
    requires StatusOf(s.rows, id) == Some(Running) && tid !in s.sweeps
    requires s.rows[id].written / 1_000_000_000 * 1_000_000_000 <= s.now - 300_000_000_000
    requires Elsewhere(acts1, tid) && Elsewhere(acts2, tid)
    ensures
      var listed := RunAll(cal, Step(cal, s, SweepList(tid)), acts1);
      var cut := RunAll(cal, Step(cal, listed, SweepNext(tid, i)), acts2);
      StatusOf(cut.rows, id) == Some(Running) ==>
        var e := Step(cal, cut, SweepNext(tid, id));
        StatusOf(e.rows, id) == Some(Failed) && id in e.log.swept
  {
    var s1 := Step(cal, s, SweepList(tid));
    Lists(cal, s, tid, id);
    SweepWaits(cal, s1, acts1, tid);
    var listed := RunAll(cal, s1, acts1);
    var s2 := Step(cal, listed, SweepNext(tid, i));
    Cuts(cal, listed, tid, id, i);
    SweepWaits(cal, s2, acts2, tid);
    var cut := RunAll(cal, s2, acts2);
    hide Step, RunAll;
    if StatusOf(cut.rows, id) == Some(Running) {
      Marks(cal, cut, tid, id);
    }
  }

  lemma Lists(cal: Calendar, s: State, tid: Thread, id: JobId)
    requires StatusOf(s.rows, id) == Some(Running) && tid !in s.sweeps
    ensures
      var s' := Step(cal, s, SweepList(tid));
      tid in s'.sweeps && s'.sweeps[tid].Listed? && id in s'.sweeps[tid].items && s'.sweeps[tid].items[id] == s.rows[id] && s'.now == s.now
  {
    hide WorkStep, AnswerStep, PlainStep, CrashStep, HandlerMove, Respond, SweepMove, CanSubmit, RowsAfter,
      FilesAfter, IssuedAfter, PoolsAfter, RegAfter, LogAfter;
  }

  lemma Cuts(cal: Calendar, s: State, tid: Thread, id: JobId, i: JobId)
    requires tid in s.sweeps && s.sweeps[tid].Listed? && id in s.sweeps[tid].items && IsStale(s.sweeps[tid].items[id], s.now)
    ensures
      var s' := Step(cal, s, SweepNext(tid, i));
      tid in s'.sweeps && s'.sweeps[tid].Marking? && id in s'.sweeps[tid].items
  {
    hide WorkStep, AnswerStep, PlainStep, CrashStep, HandlerMove, Respond, CanSubmit, RowsAfter, FilesAfter,
      IssuedAfter, PoolsAfter, RegAfter, LogAfter;
  }

  lemma Marks(cal: Calendar, s: State, tid: Thread, id: JobId)
    requires tid in s.sweeps && s.sweeps[tid].Marking? && id in s.sweeps[tid].items && StatusOf(s.rows, id) == Some(Running)
    ensures
      var s' := Step(cal, s, SweepNext(tid, id));
      StatusOf(s'.rows, id) == Some(Failed) && id in s'.log.swept
  {
    hide WorkStep, AnswerStep, PlainStep, CrashStep, HandlerMove, Respond, CanSubmit, FilesAfter, IssuedAfter,
      PoolsAfter, RegAfter;
  }
}
