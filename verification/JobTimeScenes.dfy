/** Runs against the clock: settings written late that make an enqueue use an instant twice, and a sweep
    with a late cutoff that fails a live job. */
module JobTimeScenes {
  import opened Wrappers
  import opened Text
  import opened Schedule
  import opened JobRows
  import opened JobEngine
  import opened JobScenes
  import Ticks = JobTicks
  import Timing = JobTiming

  // ---- One enqueue whose job fails -------------------------------------------------------------

  /** An idle worker, an armed pool with this next run and these enqueues so far, and no job to do. */
  ghost predicate Calm(s: State, p: PoolId, schedule: string, next: Option<int>, fs: seq<Firing>) {
    && s.worker == Idle && p in s.pools && s.pools[p] == Pool(true, schedule, next, None) && Fired(s.log, p) == fs
    && (forall i :: i in s.rows ==> i in s.issued && s.rows[i].status == Failed)
  }

  function Poll(p: PoolId): Action {
    Work(Choice(true, [p], 0, false, Done))
  }

  /** From the listing to the insert. */
  function Enqueueing(p: PoolId, job: JobId): seq<Action> {
    [Poll(p)] + [Work(ANY)] + [Work(ANY)] + [Work(ANY)] + [Pick(job)] + [Work(ANY)]
  }

  /** The pick, the claim, a pool that is not found, and the failure. */
  function Failing(job: JobId): seq<Action> {
    [Pick(job)] + [Work(ANY)] + [Work(ANY)] + [Work(ANY)]
  }

  function Round(p: PoolId, job: JobId): seq<Action> {
    Enqueueing(p, job) + Failing(job)
  }

  lemma Polls(cal: Calendar, s: State, p: PoolId)
    requires s.worker == Idle && p in s.pools
    ensures Step(cal, s, Poll(p)) == s.(worker := Polled([PoolEntry(p, s.pools[p])]))
  {
    assert Listing(s.pools, [p]) && Entries(s.pools, [p]) == [PoolEntry(p, s.pools[p])];
    Goes(cal, s, Choice(true, [p], 0, false, Done), Polled([PoolEntry(p, s.pools[p])]));
    hide Step, IsOldestPending;
  }

  lemma Clocks(cal: Calendar, s: State, e: PoolEntry)
    requires s.worker == Polled([e])
    ensures Step(cal, s, Work(ANY)) == s.(worker := Scan([e], s.now))
  {
    Goes(cal, s, ANY, Scan([e], s.now));
    hide Step;
  }

  lemma Checks(cal: Calendar, s: State, e: PoolEntry)
    requires s.worker == Scan([e], s.now) && IsDue(e.pool, s.now) && !HasActiveSnapshot(s.rows, e.id)
    ensures Step(cal, s, Work(ANY)) == s.(worker := Due(e, [], s.now, Resumes(s.log, e.id)))
  {
    hide IsDue, HasActiveSnapshot, Resumes;
    assert [e][1..] == [];
    Goes(cal, s, ANY, Due(e, [], s.now, Resumes(s.log, e.id)));
    hide Step;
  }

  lemma Moves(cal: Calendar, s: State, e: PoolEntry, base: nat)
    requires s.worker == Due(e, [], s.now, base) && e.id in s.pools
    ensures
      Step(cal, s, Work(ANY)) ==
      s.(worker := Queued(e, [], s.now, base),
         pools := s.pools[e.id := s.pools[e.id].(next := Some(CatchUpTime(cal, e.pool.next, e.pool.schedule, s.now)))])
  {
    hide CatchUpTime, Begin, Resolve, Return, Judge;
  }

  /** The insert: the log keeps the enqueue. */
  lemma Inserts(cal: Calendar, s: State, e: PoolEntry, base: nat, job: JobId)
    requires s.worker == Queued(e, [], s.now, base) && e.pool.next.Some? && job !in s.issued
    ensures
      var s' := Step(cal, s, Pick(job));
      && s'.worker == Scan([], s.now) && s'.rows == s.rows[job := NewRow(Snapshot(e.id), s.now)] && s'.issued == s.issued + {job}
      && s'.pools == s.pools && s'.now == s.now && Fired(s'.log, e.id) == Fired(s.log, e.id) + [Firing(e.pool.next.value, s.now)]
  {
    hide Begin, Resolve, Return, Judge;
  }

  lemma Ends(cal: Calendar, s: State, at: int)
    requires s.worker == Scan([], at)
    ensures Step(cal, s, Work(ANY)) == s.(worker := Idle)
  {
    Goes(cal, s, ANY, Idle);
    hide Step;
  }

  lemma EnqueueingRun(cal: Calendar, s: State, p: PoolId, schedule: string, next: int, fs: seq<Firing>, job: JobId)
    requires Calm(s, p, schedule, Some(next), fs) && TrimSpace(schedule) != "" && next <= s.now && job !in s.issued
    ensures
      var s' := RunAll(cal, s, Enqueueing(p, job));
      && s'.worker == Idle && s'.rows == s.rows[job := NewRow(Snapshot(p), s.now)] && s'.issued == s.issued + {job}
      && p in s'.pools && s'.pools[p] == Pool(true, schedule, Some(CatchUpTime(cal, Some(next), schedule, s.now)), None)
      && s'.now == s.now && Fired(s'.log, p) == fs + [Firing(next, s.now)]
  {
    hide Step, RunAll, CatchUpTime, TrimSpace, WorkerMove;
    var e, w := PoolEntry(p, s.pools[p]), Work(ANY);
    RunFirst(cal, s, Poll(p));
    Polls(cal, s, p);
    var s1 := Step(cal, s, Poll(p));
    RunOne(cal, s, [Poll(p)], w);
    Clocks(cal, s1, e);
    var s2 := Step(cal, s1, w);
    RunOne(cal, s, [Poll(p)] + [w], w);
    Checks(cal, s2, e);
    var s3 := Step(cal, s2, w);
    RunOne(cal, s, [Poll(p)] + [w] + [w], w);
    Moves(cal, s3, e, Resumes(s.log, p));
    var s4 := Step(cal, s3, w);
    RunOne(cal, s, [Poll(p)] + [w] + [w] + [w], Pick(job));
    Inserts(cal, s4, e, Resumes(s.log, p), job);
    var s5 := Step(cal, s4, Pick(job));
    RunOne(cal, s, [Poll(p)] + [w] + [w] + [w] + [Pick(job)], w);
    Ends(cal, s5, s.now);
    hide Fired, Resumes;
  }

  lemma NotFound(cal: Calendar, s: State, job: JobId, p: PoolId)
    requires s.worker == Claimed(job, Snapshot(p))
    ensures Step(cal, s, Work(ANY)) == s.(worker := Finish(job, Fail, None), log := s.log.(failed := s.log.failed + {job}))
  {
    hide Begin, Enqueue, Return, Judge;
  }

  lemma Closes(cal: Calendar, s: State, job: JobId)
    requires s.worker == Finish(job, Fail, None)
    ensures Step(cal, s, Work(ANY)) == s.(worker := Idle, rows := Exec(s.rows, job, Fail, s.now))
  {
    FinishMove(cal, s, job, Fail);
    Writes(cal, s, ANY, Idle, job, Fail);
    hide Step, Exec;
  }

  lemma FailingRun(cal: Calendar, s: State, job: JobId, p: PoolId)
    requires s.worker == Idle && job in s.rows && s.rows[job].status == Pending && s.rows[job].task == Snapshot(p)
    requires forall i :: i in s.rows && i != job ==> s.rows[i].status == Failed
    ensures
      var s' := RunAll(cal, s, Failing(job));
      && s'.worker == Idle && s'.rows.Keys == s.rows.Keys && (forall i :: i in s'.rows ==> s'.rows[i].status == Failed)
      && s'.issued == s.issued && s'.pools == s.pools && s'.now == s.now && s'.log.fired == s.log.fired
  {
    hide Step, RunAll, WorkerMove;
    assert IsOldestPending(s.rows, job);
    hide IsOldestPending;
    var w := Work(ANY);
    RunFirst(cal, s, Pick(job));
    Picks(cal, s, job);
    var s1 := Step(cal, s, Pick(job));
    RunOne(cal, s, [Pick(job)], w);
    Claims(cal, s1, job, Snapshot(p));
    var s2 := Step(cal, s1, w);
    RunOne(cal, s, [Pick(job)] + [w], w);
    NotFound(cal, s2, job, p);
    var s3 := Step(cal, s2, w);
    RunOne(cal, s, [Pick(job)] + [w] + [w], w);
    Closes(cal, s3, job);
  }

  /** A due pool gets one job, which fails; its next run moves on. */
  lemma RoundRun(cal: Calendar, s: State, p: PoolId, schedule: string, next: int, fs: seq<Firing>, job: JobId)
    requires Calm(s, p, schedule, Some(next), fs) && TrimSpace(schedule) != "" && next <= s.now && job !in s.issued
    ensures
      var s' := RunAll(cal, s, Round(p, job));
      && Calm(s', p, schedule, Some(CatchUpTime(cal, Some(next), schedule, s.now)), fs + [Firing(next, s.now)])
      && s'.now == s.now && s'.issued == s.issued + {job}
  {
    hide RunAll, CatchUpTime, TrimSpace, Enqueueing, Failing;
    EnqueueingRun(cal, s, p, schedule, next, fs, job);
    var s1 := RunAll(cal, s, Enqueueing(p, job));
    FailingRun(cal, s1, job, p);
    RunConcat(cal, s, Enqueueing(p, job), Failing(job));
  }

  // ---- Settings written late -------------------------------------------------------------------

  /** What a settings request writes that read the clock at n. */
  function Settings(cal: Calendar, schedule: string, n: int): Pool {
    Pool(true, schedule, InitialNextRun(cal, true, schedule, n), None)
  }

  function Wait(from: int, to: int): nat {
    if from <= to then to - from else 0
  }

  /** The first two instants selected after a moment. */
  function FirstTick(cal: Calendar, schedule: string, from: int): int {
    NextTime(cal, schedule, from)
  }

  function SecondTick(cal: Calendar, schedule: string, from: int): int {
    var t := FirstTick(cal, schedule, from);
    CatchUpTime(cal, Some(t), schedule, t)
  }

  /** The pool is configured; at the first instant its first job is inserted, and fails; then the clock runs
      until one nanosecond before the second instant. There the second settings request reads it. */
  function UpToReading(cal: Calendar, p: PoolId, schedule: string, now: int): seq<Action> {
    var t1, t2 := FirstTick(cal, schedule, now), SecondTick(cal, schedule, now);
    [Configure(p, Settings(cal, schedule, now))] + [Elapse(Wait(now, t1))] + Round(p, 1) + [Elapse(Wait(t1, t2 - 1))]
  }

  /** At the second instant the second job is inserted, and fails; only then the request writes; a third job
      follows. */
  function SlowRun(cal: Calendar, p: PoolId, schedule: string, now: int): seq<Action> {
    UpToReading(cal, p, schedule, now) + [Elapse(1)] + Round(p, 2)
    + [Configure(p, Settings(cal, schedule, SecondTick(cal, schedule, now) - 1))] + Round(p, 3)
  }

  lemma Waits(cal: Calendar, s: State, d: nat)
    ensures Step(cal, s, Elapse(d)) == s.(now := s.now + d)
  {
  }

  lemma Configures(cal: Calendar, s: State, p: PoolId, pool: Pool)
    ensures Step(cal, s, Configure(p, pool)) == s.(pools := s.pools[p := pool])
  {
  }

  lemma TicksAhead(cal: Calendar, schedule: string, now: int)
    requires cal.Valid() && TrimSpace(schedule) != ""
    ensures
      var t1, t2 := FirstTick(cal, schedule, now), SecondTick(cal, schedule, now);
      && now < t1 < t2 && InitialNextRun(cal, true, schedule, now) == Some(t1)
      && InitialNextRun(cal, true, schedule, t2 - 1) == Some(t2)
  {
    hide NextForPlan, PlanOf, TrimSpace, Schedule.Tick;
    var t1 := FirstTick(cal, schedule, now);
    NextTimeIsLeast(cal, schedule, now);
    NextTimeIsLeast(cal, schedule, t1);
    NextTimeIsLeast(cal, schedule, SecondTick(cal, schedule, now) - 1);
  }

  lemma ReadingRun(cal: Calendar, s: State, p: PoolId, schedule: string)
    requires cal.Valid() && Init(s) && TrimSpace(schedule) != ""
    ensures
      var t1, t2 := FirstTick(cal, schedule, s.now), SecondTick(cal, schedule, s.now);
      var s' := RunAll(cal, s, UpToReading(cal, p, schedule, s.now));
      Calm(s', p, schedule, Some(t2), [Firing(t1, t1)]) && s'.now == t2 - 1 && s'.issued == {1}
  {
    hide Step, RunAll, NextTime, TrimSpace, CatchUpTime, Round, InitialNextRun;
    TicksAhead(cal, schedule, s.now);
    var t1, t2 := FirstTick(cal, schedule, s.now), SecondTick(cal, schedule, s.now);
    var c, w := Configure(p, Settings(cal, schedule, s.now)), Elapse(Wait(s.now, t1));
    RunFirst(cal, s, c);
    Configures(cal, s, p, Settings(cal, schedule, s.now));
    RunOne(cal, s, [c], w);
    Waits(cal, RunAll(cal, s, [c]), Wait(s.now, t1));
    var s1 := RunAll(cal, s, [c] + [w]);
    RoundRun(cal, s1, p, schedule, t1, [], 1);
    RunConcat(cal, s, [c] + [w], Round(p, 1));
    var s2 := RunAll(cal, s, [c] + [w] + Round(p, 1));
    RunOne(cal, s, [c] + [w] + Round(p, 1), Elapse(Wait(t1, t2 - 1)));
    Waits(cal, s2, Wait(t1, t2 - 1));
    assert [] + [Firing(t1, t1)] == [Firing(t1, t1)];
  }

  /** For every calendar, schedule and start there is a run in which a settings request that read the clock
      before an enqueue, and wrote after it, makes the next enqueue use the same instant. */
  lemma SlowSettings(cal: Calendar, s: State, p: PoolId, schedule: string)
    requires cal.Valid() && Init(s) && TrimSpace(schedule) != ""
    ensures
      var n := RunAll(cal, s, UpToReading(cal, p, schedule, s.now)).now;
      n == SecondTick(cal, schedule, s.now) - 1
    ensures
      var fs := Fired(RunAll(cal, s, SlowRun(cal, p, schedule, s.now)).log, p);
      |fs| == 3 && fs[2].tick == fs[1].tick
  {
    hide Step, RunAll, NextTime, TrimSpace, CatchUpTime, Round, InitialNextRun, UpToReading, FirstTick, SecondTick;
    ReadingRun(cal, s, p, schedule);
    TicksAhead(cal, schedule, s.now);
    var t1, t2 := FirstTick(cal, schedule, s.now), SecondTick(cal, schedule, s.now);
    var begin := UpToReading(cal, p, schedule, s.now);
    var s1 := RunAll(cal, s, begin);
    RunOne(cal, s, begin, Elapse(1));
    Waits(cal, s1, 1);
    var s2 := RunAll(cal, s, begin + [Elapse(1)]);
    RoundRun(cal, s2, p, schedule, t2, [Firing(t1, t1)], 2);
    RunConcat(cal, s, begin + [Elapse(1)], Round(p, 2));
    var s3 := RunAll(cal, s, begin + [Elapse(1)] + Round(p, 2));
    var c := Configure(p, Settings(cal, schedule, t2 - 1));
    RunOne(cal, s, begin + [Elapse(1)] + Round(p, 2), c);
    Configures(cal, s3, p, Settings(cal, schedule, t2 - 1));
    var s4 := RunAll(cal, s, begin + [Elapse(1)] + Round(p, 2) + [c]);
    RoundRun(cal, s4, p, schedule, t2, [Firing(t1, t1)] + [Firing(t2, t2)], 3);
    RunConcat(cal, s, begin + [Elapse(1)] + Round(p, 2) + [c], Round(p, 3));
  }

  // ---- A sweep with a late cutoff --------------------------------------------------------------

  const BEAT := 299 * SECOND

  /** A sweep lists the running row; the heartbeat writes it 299 s later; the sweep takes its cutoff another
      two seconds later, and goes by the row it listed. */
  function LateSweep(): seq<Action> {
    [SweepList(CLIENT)] + [Elapse(BEAT)] + [Beat(JOB)] + [Elapse(2 * SECOND)] + [SweepNext(CLIENT, JOB)] + [SweepNext(CLIENT, JOB)]
  }

  lemma Lists(cal: Calendar, s: State)
    requires s.sweeps == map[]
    ensures Step(cal, s, SweepList(CLIENT)) == s.(sweeps := map[CLIENT := Listed(RunningRows(s.rows), s.now)])
  {
    Nothing1(s);
    hide LogAfter, RowsAfter, FilesAfter, IssuedAfter, RegAfter, PoolsAfter, RunningRows;
  }

  lemma Beats(cal: Calendar, s: State)
    requires JOB in s.beats && StatusOf(s.rows, JOB) == Some(Running)
    ensures Step(cal, s, Beat(JOB)) == s.(rows := s.rows[JOB := s.rows[JOB].(written := s.now)])
  {
    BeatWrites(cal, s);
    hide Step;
  }

  lemma BeatWrites(cal: Calendar, s: State)
    requires JOB in s.beats
    ensures Step(cal, s, Beat(JOB)) == s.(rows := Exec(s.rows, JOB, Heartbeat, s.now))
  {
    hide Exec;
  }

  lemma Cuts(cal: Calendar, s: State, items: Rows, at: int)
    requires s.sweeps == map[CLIENT := Listed(items, at)]
    ensures Step(cal, s, SweepNext(CLIENT, JOB)) == s.(sweeps := map[CLIENT := Marking(StaleRows(items, s.now))])
  {
    Nothing1(s);
    hide LogAfter, RowsAfter, FilesAfter, IssuedAfter, RegAfter, PoolsAfter, StaleRows;
  }

  lemma Marks(cal: Calendar, s: State, items: Rows)
    requires s.sweeps == map[CLIENT := Marking(items)] && JOB in items && StatusOf(s.rows, JOB) == Some(Running)
    ensures
      var s' := Step(cal, s, SweepNext(CLIENT, JOB));
      StatusOf(s'.rows, JOB) == Some(Failed) && JOB in s'.log.swept && s'.worker == s.worker && s'.now == s.now
  {
    hide FilesAfter, IssuedAfter, RegAfter, PoolsAfter, SharedPaths;
  }

  /** Only the clock makes a written row older. */
  lemma WrittenStep(cal: Calendar, s: State, a: Action, id: JobId, d: nat)
    requires Timing.WrittenWithin(s, id, d) && !a.Elapse?
    ensures Timing.WrittenWithin(Step(cal, s, a), id, d)
  {
    StepEffect(cal, s, a);
    ClockStays(cal, s, a);
    hide Step, EffectOf;
  }

  lemma ClockStays(cal: Calendar, s: State, a: Action)
    requires !a.Elapse?
    ensures Step(cal, s, a).now == s.now
  {
    hide WorkerMove, HandlerMove, Respond, SweepMove, CanSubmit, RunningRows, RowsAfter, FilesAfter, IssuedAfter, PoolsAfter,
      RegAfter, LogAfter, Place;
  }

  lemma {:induction false} WrittenRun(cal: Calendar, s: State, acts: seq<Action>, id: JobId, d: nat)
    requires Timing.WrittenWithin(s, id, d) && forall i :: 0 <= i < |acts| ==> !acts[i].Elapse?
    ensures Timing.WrittenWithin(RunAll(cal, s, acts), id, d)
  {
    hide Step, Timing.WrittenWithin;
    if acts != [] {
      WrittenRun(cal, s, acts[..|acts| - 1], id, d);
      WrittenStep(cal, RunAll(cal, s, acts[..|acts| - 1]), acts[|acts| - 1], id, d);
    }
  }

  /** The row of a transfer under way. */
  ghost predicate Live(s: State, written: int) {
    StatusOf(s.rows, JOB) == Some(Running) && s.rows[JOB].written == written && s.worker.Active? && s.worker.id == JOB && JOB in s.beats
  }

  lemma LateStates(cal: Calendar, s: State, j: nat)
    requires Live(s, s.now) && s.sweeps == map[] && j <= 6
    ensures Timing.WrittenWithin(RunAll(cal, s, LateSweep()[..j]), JOB, BEAT)
    ensures
      var e := RunAll(cal, s, LateSweep());
      StatusOf(e.rows, JOB) == Some(Failed) && JOB in e.log.swept && e.worker == s.worker
  {
    hide Step, RunAll, StaleRows, RunningRows;
    var a1, a2, a3, a4, a5 := SweepList(CLIENT), Elapse(BEAT), Beat(JOB), Elapse(2 * SECOND), SweepNext(CLIENT, JOB);
    RunFirst(cal, s, a1);
    Lists(cal, s);
    var s1 := Step(cal, s, a1);
    RunOne(cal, s, [a1], a2);
    Waits(cal, s1, BEAT);
    var s2 := Step(cal, s1, a2);
    RunOne(cal, s, [a1] + [a2], a3);
    Beats(cal, s2);
    var s3 := Step(cal, s2, a3);
    RunOne(cal, s, [a1] + [a2] + [a3], a4);
    Waits(cal, s3, 2 * SECOND);
    var s4 := Step(cal, s3, a4);
    RunOne(cal, s, [a1] + [a2] + [a3] + [a4], a5);
    Cuts(cal, s4, RunningRows(s.rows), s.now);
    var s5 := Step(cal, s4, a5);
    RunOne(cal, s, [a1] + [a2] + [a3] + [a4] + [a5], a5);
    ListedRowIsStale(s.rows, s.now);
    Marks(cal, s5, StaleRows(RunningRows(s.rows), s4.now));
    Prefixes(cal, s);
  }

  lemma ListedRowIsStale(rows: Rows, now: int)
    requires StatusOf(rows, JOB) == Some(Running) && rows[JOB].written == now
    ensures JOB in StaleRows(RunningRows(rows), now + BEAT + 2 * SECOND)
  {
    StoredIsTruncated(rows[JOB]);
  }

  lemma Prefixes(cal: Calendar, s: State)
    ensures
      var l := LateSweep();
      var a1, a2, a3, a4, a5 := SweepList(CLIENT), Elapse(BEAT), Beat(JOB), Elapse(2 * SECOND), SweepNext(CLIENT, JOB);
      && |l| == 6 && l[..0] == [] && l[..1] == [a1] && l[..2] == [a1] + [a2] && l[..3] == [a1] + [a2] + [a3] && l[..4] == [a1] + [a2] + [a3] + [a4]
      && l[..5] == [a1] + [a2] + [a3] + [a4] + [a5] && l[..6] == l && RunAll(cal, s, []) == s
  {
  }

  /** Why the bound on live jobs needs a prompt cutoff: in this run the job's row was written at most 299 s
      ago in every state, and still a sweep fails the job while its transfer goes on. */
  lemma LateCutoffFailsLiveJob(cal: Calendar, s: State)
    requires Init(s)
    ensures
      var acts := BegunSteps() + LateSweep();
      var e := RunAll(cal, s, acts);
      && (forall k :: 0 <= k <= |acts| ==> Timing.WrittenWithin(RunAll(cal, s, acts[..k]), JOB, BEAT))
      && StatusOf(e.rows, JOB) == Some(Failed) && JOB in e.log.swept && e.worker.Active? && e.worker.id == JOB
  {
    hide Step, RunAll, LateSweep, Timing.WrittenWithin;
    BegunRun(cal, s);
    var begun, late := BegunSteps(), LateSweep();
    var s1 := RunAll(cal, s, begun);
    assert |late| == 6 by { Prefixes(cal, s); }
    LateStates(cal, s1, 0);
    RunConcat(cal, s, begun, late);
    forall k | 0 <= k <= |begun + late| ensures Timing.WrittenWithin(RunAll(cal, s, (begun + late)[..k]), JOB, BEAT) {
      if k <= |begun| {
        assert (begun + late)[..k] == begun[..k];
        BegunWaits(cal, s, k);
      } else {
        assert (begun + late)[..k] == begun + late[..k - |begun|];
        RunConcat(cal, s, begun, late[..k - |begun|]);
        LateStates(cal, s1, k - |begun|);
      }
    }
  }

  lemma BegunWaits(cal: Calendar, s: State, k: nat)
    requires Init(s) && k <= |BegunSteps()|
    ensures Timing.WrittenWithin(RunAll(cal, s, BegunSteps()[..k]), JOB, BEAT)
  {
    assert forall i :: 0 <= i < |BegunSteps()| ==> !BegunSteps()[i].Elapse?;
    WrittenRun(cal, s, BegunSteps()[..k], JOB, BEAT);
    hide RunAll, Opening;
  }
}
