/** Each automatic-snapshot enqueue of a pool uses up a scheduled instant of its own. */
module JobTicks {
  import opened Wrappers
  import opened Text
  import opened Schedule
  import opened JobRows
  import opened JobEngine

  /** Consecutive enqueues are separated by the instant the later one was due at. */
  ghost predicate Separated(cal: Calendar, plan: Plan, fs: seq<Firing>) {
    && (forall k :: 0 <= k < |fs| ==> fs[k].tick <= fs[k].at)
    && (forall k :: 0 < k < |fs| ==> fs[k - 1].at < fs[k].tick && Tick(cal, plan, fs[k].tick))
  }

  /** A due time that lies after every enqueue so far and is selected by the plan, or no enqueue yet. */
  ghost predicate Ahead(cal: Calendar, plan: Plan, fs: seq<Firing>, t: int) {
    fs == [] || (fs[|fs| - 1].at < t && Tick(cal, plan, t))
  }

  /** Whenever the pool is armed, it is so with this schedule. */
  predicate ArmedWith(pool: Pool, schedule: string) {
    IsArmed(pool) ==> pool.schedule == schedule
  }

  /** A copy of the pool's row, however old: its due time still lies ahead. */
  ghost predicate EntryOk(cal: Calendar, e: PoolEntry, p: PoolId, schedule: string, fs: seq<Firing>) {
    e.id == p ==> ArmedWith(e.pool, schedule) && (e.pool.next.Some? ==> Ahead(cal, PlanOf(schedule), fs, e.pool.next.value))
  }

  ghost predicate EntriesOk(cal: Calendar, todo: seq<PoolEntry>, p: PoolId, schedule: string, fs: seq<Firing>) {
    && (forall k :: 0 <= k < |todo| ==> EntryOk(cal, todo[k], p, schedule, fs))
    && (forall k, l :: 0 <= k < l < |todo| ==> todo[k].id != todo[l].id)
  }

  predicate Absent(todo: seq<PoolEntry>, p: PoolId) {
    forall k :: 0 <= k < |todo| ==> todo[k].id != p
  }

  /** What the worker's place says about pool p. */
  ghost predicate PlaceOk(cal: Calendar, w: Worker, now: int, p: PoolId, schedule: string, next: Option<int>, fs: seq<Firing>) {
    match w
    case Polled(todo) => EntriesOk(cal, todo, p, schedule, fs)
    case Scan(todo, at) => at <= now && EntriesOk(cal, todo, p, schedule, fs) && (fs != [] ==> fs[|fs| - 1].at <= at)
    case Due(e, todo, at, _) =>
      && at <= now && EntriesOk(cal, todo, p, schedule, fs) && (fs != [] ==> fs[|fs| - 1].at <= at)
      && e.pool.next.Some? && e.pool.next.value <= at
      && (e.id == p ==>
            && Absent(todo, p) && e.pool.schedule == schedule && Ahead(cal, PlanOf(schedule), fs, e.pool.next.value))
    case Queued(e, todo, at, _) =>
      && at <= now && EntriesOk(cal, todo, p, schedule, fs) && (fs != [] ==> fs[|fs| - 1].at <= at)
      && e.pool.next.Some? && e.pool.next.value <= at
      && (e.id == p ==>
            && Absent(todo, p) && Ahead(cal, PlanOf(schedule), fs, e.pool.next.value)
            && (next.Some? ==> at < next.value && Tick(cal, PlanOf(schedule), next.value)))
    case _ => true
  }

  predicate WorkOk(w: Worker, p: PoolId, schedule: string) {
    match w
    case Opened(_, work) => work.Capture? && work.pool == p ==> work.schedule == schedule
    case Ready(_, work) => work.Capture? && work.pool == p ==> work.schedule == schedule
    case Active(_, work, _) => work.Capture? && work.pool == p ==> work.schedule == schedule
    case Stopped(_, work, _, _) => work.Capture? && work.pool == p ==> work.schedule == schedule
    case Left(_, work, _, _, _) => work.Capture? && work.pool == p ==> work.schedule == schedule
    case Judged(_, work, _, _, _, _) => work.Capture? && work.pool == p ==> work.schedule == schedule
    case _ => true
  }

  ghost predicate TickInv(cal: Calendar, s: State, p: PoolId, schedule: string) {
    && p in s.pools && ArmedWith(s.pools[p], schedule)
    && Separated(cal, PlanOf(schedule), Fired(s.log, p))
    && (Fired(s.log, p) != [] ==> Fired(s.log, p)[|Fired(s.log, p)| - 1].at <= s.now)
    && (s.pools[p].next.Some? ==> Ahead(cal, PlanOf(schedule), Fired(s.log, p), s.pools[p].next.value))
    && PlaceOk(cal, s.worker, s.now, p, schedule, s.pools[p].next, Fired(s.log, p))
    && WorkOk(s.worker, p, schedule)
  }

  /** The two ways a next run is computed give selected instants later than their start. */
  lemma NextIsLater(cal: Calendar, schedule: string, last: Option<int>, now: int)
    requires cal.Valid()
    ensures now < NextTime(cal, schedule, now) && Tick(cal, PlanOf(schedule), NextTime(cal, schedule, now))
    ensures now < CatchUpTime(cal, last, schedule, now) && Tick(cal, PlanOf(schedule), CatchUpTime(cal, last, schedule, now))
  {
    hide PlanOf, Schedule.Tick, NextTime;
    NextTimeIsLeast(cal, schedule, now);
    if last.Some? {
      NextTimeIsLeast(cal, schedule, last.value);
    }
  }

  /** The history of enqueues after a step, the only part of the log this module needs. */
  lemma FiredAfter(s: State, e: Effect, n: Note, p: PoolId)
    ensures Fired(LogAfter(s, e, n), p) == Fired(s.log, p) + (if n.Fire? && n.pool == p then [n.firing] else [])
  {
  }

  /** TickInv of the state a worker's move leads to, in terms of the move. */
  ghost predicate TickThen(cal: Calendar, s: State, m: Move, p: PoolId, schedule: string) {
    var pools, fs := PoolsAfter(s.pools, m.effect), Fired(s.log, p) + (if m.note.Fire? && m.note.pool == p then [m.note.firing] else []);
    && p in pools && ArmedWith(pools[p], schedule)
    && Separated(cal, PlanOf(schedule), fs)
    && (fs != [] ==> fs[|fs| - 1].at <= s.now)
    && (pools[p].next.Some? ==> Ahead(cal, PlanOf(schedule), fs, pools[p].next.value))
    && PlaceOk(cal, m.worker, s.now, p, schedule, pools[p].next, fs)
    && WorkOk(m.worker, p, schedule)
  }

  lemma SeparatedSnoc(cal: Calendar, plan: Plan, fs: seq<Firing>, f: Firing)
    requires Separated(cal, plan, fs) && Ahead(cal, plan, fs, f.tick) && f.tick <= f.at
    ensures Separated(cal, plan, fs + [f])
  {
  }

  lemma EntriesTail(cal: Calendar, todo: seq<PoolEntry>, p: PoolId, schedule: string, fs: seq<Firing>)
    requires EntriesOk(cal, todo, p, schedule, fs) && todo != []
    ensures EntriesOk(cal, todo[1..], p, schedule, fs) && EntryOk(cal, todo[0], p, schedule, fs)
    ensures todo[0].id == p ==> Absent(todo[1..], p)
  {
    hide EntryOk;
  }

  /** Entries of other pools do not mind. */
  lemma AbsentOk(cal: Calendar, todo: seq<PoolEntry>, p: PoolId, schedule: string, fs: seq<Firing>, fs': seq<Firing>)
    requires EntriesOk(cal, todo, p, schedule, fs) && Absent(todo, p)
    ensures EntriesOk(cal, todo, p, schedule, fs')
  {
    hide Ahead, IsArmed;
  }

  lemma PolledTicks(cal: Calendar, s: State, c: Choice, p: PoolId, schedule: string)
    requires TickInv(cal, s, p, schedule) && s.worker.Polled?
    ensures TickThen(cal, s, Enqueue(cal, s, c.id), p, schedule)
  {
    hide Separated, Ahead, EntriesOk, Absent, PlanOf, HasActiveSnapshot, Resumes, TrimSpace, Fired;
    assert Fired(s.log, p) + [] == Fired(s.log, p);
  }

  lemma ScanTicks(cal: Calendar, s: State, c: Choice, p: PoolId, schedule: string)
    requires TickInv(cal, s, p, schedule) && s.worker.Scan?
    ensures TickThen(cal, s, Enqueue(cal, s, c.id), p, schedule)
  {
    hide Separated, Ahead, EntriesOk, Absent, PlanOf, HasActiveSnapshot, Resumes, TrimSpace, Fired;
    assert Fired(s.log, p) + [] == Fired(s.log, p);
    if s.worker.todo != [] {
      EntriesTail(cal, s.worker.todo, p, schedule, Fired(s.log, p));
    }
  }

  lemma DueTicks(cal: Calendar, s: State, c: Choice, p: PoolId, schedule: string)
    requires cal.Valid() && TickInv(cal, s, p, schedule) && s.worker.Due?
    ensures TickThen(cal, s, Enqueue(cal, s, c.id), p, schedule)
  {
    hide PlanOf, TrimSpace, NextTime, CatchUpTime, Schedule.Tick;
    var e, fs := s.worker.entry, Fired(s.log, p);
    NextIsLater(cal, e.pool.schedule, e.pool.next, s.worker.at);
    assert fs + [] == fs;
    var next := CatchUpTime(cal, e.pool.next, e.pool.schedule, s.worker.at);
    assert e.id == p ==> Ahead(cal, PlanOf(schedule), fs, next);
    hide Separated, Ahead, EntriesOk, Absent, Fired;
  }

  lemma QueuedTicks(cal: Calendar, s: State, c: Choice, p: PoolId, schedule: string)
    requires TickInv(cal, s, p, schedule) && s.worker.Queued?
    ensures TickThen(cal, s, Enqueue(cal, s, c.id), p, schedule)
  {
    hide PlanOf, TrimSpace, HasActiveSnapshot, Resumes, Separated, Ahead, EntriesOk, Absent, Fired, IsArmed;
    var fs, moved := Fired(s.log, p), Enqueue(cal, s, c.id);
    assert fs + [] == fs;
    if s.worker.entry.id == p {
      FiringTicks(cal, s, c, p, schedule);
    } else {
      assert PoolsAfter(s.pools, moved.effect) == s.pools;
      assert !(moved.note.Fire? && moved.note.pool == p);
    }
  }

  lemma FiringTicks(cal: Calendar, s: State, c: Choice, p: PoolId, schedule: string)
    requires TickInv(cal, s, p, schedule) && s.worker.Queued? && s.worker.entry.id == p
    ensures TickThen(cal, s, Enqueue(cal, s, c.id), p, schedule)
  {
    hide PlanOf, TrimSpace, NextTime, CatchUpTime, Schedule.Tick;
    var e, at, fs := s.worker.entry, s.worker.at, Fired(s.log, p);
    var f := Firing(e.pool.next.value, at);
    assert fs + [] == fs;
    SeparatedSnoc(cal, PlanOf(schedule), fs, f);
    AbsentOk(cal, s.worker.todo, p, schedule, fs, fs + [f]);
    assert s.pools[p].next.Some? ==> Ahead(cal, PlanOf(schedule), fs + [f], s.pools[p].next.value);
    hide Separated, Ahead, EntriesOk, Absent, Fired;
  }

  lemma AfterRunPlain(id: JobId, work: Work, outcome: Outcome, reason: Option<Reason>, seen: Option<Status>)
    ensures var w := AfterRun(id, work, outcome, reason, seen); w.Idle? || w.Finish? || w.Remove?
  {
  }

  lemma JudgedTicks(cal: Calendar, s: State, c: Choice, p: PoolId, schedule: string)
    requires cal.Valid() && TickInv(cal, s, p, schedule) && s.worker.Judged?
    ensures TickThen(cal, s, WorkerMove(cal, s, c), p, schedule)
  {
    hide PlanOf, TrimSpace, NextTime, CatchUpTime, Schedule.Tick;
    var fs := Fired(s.log, p);
    NextIsLater(cal, schedule, None, s.now);
    assert fs + [] == fs;
    assert Ahead(cal, PlanOf(schedule), fs, NextTime(cal, schedule, s.now));
    AfterRunPlain(s.worker.id, s.worker.work, s.worker.outcome, s.worker.reason, s.worker.seen);
    hide Separated, Ahead, EntriesOk, Absent, Fired, Begin, Enqueue, Resolve, Return, AfterRun;
  }

  lemma IdleTicks(cal: Calendar, s: State, c: Choice, p: PoolId, schedule: string)
    requires TickInv(cal, s, p, schedule) && s.worker.Idle?
    ensures TickThen(cal, s, Begin(s, c), p, schedule)
  {
    hide PlanOf, TrimSpace, Schedule.Tick;
    var fs := Fired(s.log, p);
    assert fs + [] == fs;
    if c.scan && Listing(s.pools, c.order) {
      assert EntriesOk(cal, Entries(s.pools, c.order), p, schedule, fs);
    }
    hide Separated, Ahead, EntriesOk, Fired, Listing, Entries, IsOldestPending;
  }

  /** The moves of a run write no pool and enqueue nothing. */
  lemma RunTicks(cal: Calendar, s: State, c: Choice, p: PoolId, schedule: string)
    requires TickInv(cal, s, p, schedule) && (Held(s.worker).Some? || s.worker.Picked?) && !s.worker.Judged?
    ensures TickThen(cal, s, WorkerMove(cal, s, c), p, schedule)
  {
    hide PlanOf, TrimSpace, Schedule.Tick, Separated, Ahead, Fired, Begin, Enqueue, Judge, StatusOf, Lookup;
    var fs := Fired(s.log, p);
    assert fs + [] == fs;
  }

  lemma MoveTicks(cal: Calendar, s: State, c: Choice, p: PoolId, schedule: string)
    requires cal.Valid() && TickInv(cal, s, p, schedule)
    ensures TickThen(cal, s, WorkerMove(cal, s, c), p, schedule)
  {
    hide PlanOf, TrimSpace, NextTime, CatchUpTime, Schedule.Tick, TickThen, TickInv, Enqueue, Begin, Resolve, Return, Judge;
    if s.worker.Polled? {
      PolledTicks(cal, s, c, p, schedule);
    } else if s.worker.Scan? {
      ScanTicks(cal, s, c, p, schedule);
    } else if s.worker.Due? {
      DueTicks(cal, s, c, p, schedule);
    } else if s.worker.Queued? {
      QueuedTicks(cal, s, c, p, schedule);
    } else if s.worker.Judged? {
      JudgedTicks(cal, s, c, p, schedule);
    } else if s.worker.Idle? {
      IdleTicks(cal, s, c, p, schedule);
    } else {
      RunTicks(cal, s, c, p, schedule);
    }
  }

  lemma WorkTicks(cal: Calendar, s: State, c: Choice, p: PoolId, schedule: string)
    requires cal.Valid() && TickInv(cal, s, p, schedule)
    ensures TickInv(cal, WorkStep(cal, s, c), p, schedule)
  {
    hide PlanOf, TrimSpace, Schedule.Tick, WorkerMove, Separated, Ahead, PlaceOk, WorkOk, PoolsAfter, RowsAfter, FilesAfter,
      IssuedAfter, RegAfter, Follows;
    MoveTicks(cal, s, c, p, schedule);
    var m := WorkerMove(cal, s, c);
    FiredAfter(s, m.effect, m.note, p);
    assert Fired(s.log, p) + [] == Fired(s.log, p);
    hide Fired, LogAfter;
  }

  lemma OtherTicks(cal: Calendar, s: State, a: Action, p: PoolId, schedule: string)
    requires TickInv(cal, s, p, schedule) && !a.Work? && !(a.Configure? && a.pool == p)
    ensures TickInv(cal, Step(cal, s, a), p, schedule)
  {
    hide PlanOf, TrimSpace, Schedule.Tick, Separated, Ahead, EntriesOk, Absent, WorkStep;
    QuietElsewhere(s, a);
    hide Respond, HandlerMove, SweepMove, CanSubmit, RunningRows, RowsAfter, FilesAfter, IssuedAfter, RegAfter, Place,
      AcceptedAfter, ResumesAfter, OrphansAfter;
  }

  // ---- Changed settings ------------------------------------------------------------------------

  ghost predicate NoTickBetween(cal: Calendar, schedule: string, n: int, m: int) {
    forall u :: n < u <= m ==> !Tick(cal, PlanOf(schedule), u)
  }

  /** The initial next run of a moment lies beyond another exactly if no selected instant lies between. */
  lemma InitialIsBeyond(cal: Calendar, schedule: string, n: int, m: int)
    requires cal.Valid() && TrimSpace(schedule) != ""
    ensures
      var next := InitialNextRun(cal, true, schedule, n);
      next.Some? && Tick(cal, PlanOf(schedule), next.value) && (m < next.value <==> NoTickBetween(cal, schedule, n, m))
  {
    hide PlanOf, TrimSpace, Schedule.Tick, NextTime;
    InitialRunIsNext(cal, true, schedule, n);
  }

  /** No selected instant lies between a moment and the last enqueue of the pool, nor the listing that an
      enqueue of it under way started from. */
  ghost predicate Timely(cal: Calendar, s: State, p: PoolId, schedule: string, n: int) {
    && (Fired(s.log, p) != [] ==> NoTickBetween(cal, schedule, n, Fired(s.log, p)[|Fired(s.log, p)| - 1].at))
    && (s.worker.Queued? && s.worker.entry.id == p ==> NoTickBetween(cal, schedule, n, s.worker.at))
  }

  /** A settings request that read the clock at n, writes the initial next run of n, and leaves the pool's
      schedule if it leaves it armed, keeps the invariant exactly if it is timely, or sets no next run. */
  lemma ConfigureTicks(cal: Calendar, s: State, p: PoolId, entry: Pool, schedule: string, n: int)
    requires cal.Valid() && TickInv(cal, s, p, schedule) && ArmedWith(entry, schedule)
    requires entry.next == InitialNextRun(cal, entry.enabled, entry.schedule, n)
    ensures TickInv(cal, Step(cal, s, Configure(p, entry)), p, schedule) <==> entry.next.None? || Timely(cal, s, p, schedule, n)
  {
    hide PlanOf, TrimSpace, NextTime, Schedule.Tick, Separated, EntriesOk, Absent, WorkStep, NoTickBetween;
    if entry.next.Some? {
      if Fired(s.log, p) != [] {
        InitialIsBeyond(cal, schedule, n, Fired(s.log, p)[|Fired(s.log, p)| - 1].at);
      }
      if s.worker.Queued? {
        InitialIsBeyond(cal, schedule, n, s.worker.at);
      }
    }
    hide WorkOk, Fired;
  }

  lemma ConfigureKept(cal: Calendar, s: State, p: PoolId, entry: Pool, schedule: string)
    requires TickInv(cal, s, p, schedule) && ArmedWith(entry, schedule) && (entry.next.None? || entry.next == s.pools[p].next)
    ensures TickInv(cal, Step(cal, s, Configure(p, entry)), p, schedule)
  {
    hide PlanOf, TrimSpace, NextTime, Schedule.Tick, Separated, Ahead, EntriesOk, Absent, WorkStep;
    hide WorkOk, Fired;
  }

  /** A change of the pool's settings that leaves its schedule, or disarms the pool, or arms it with this
      schedule again. The next run stays, or is none, or is the initial one of a timely reading of the clock. */
  ghost predicate KeepsTicks(cal: Calendar, s: State, p: PoolId, entry: Pool, schedule: string) {
    && p in s.pools && ArmedWith(entry, schedule)
    && (|| entry.next.None? || entry.next == s.pools[p].next
        || exists n :: Timely(cal, s, p, schedule, n) && entry.next == InitialNextRun(cal, entry.enabled, entry.schedule, n))
  }

  lemma SettingsTicks(cal: Calendar, s: State, p: PoolId, entry: Pool, schedule: string)
    requires cal.Valid() && TickInv(cal, s, p, schedule) && KeepsTicks(cal, s, p, entry, schedule)
    ensures TickInv(cal, Step(cal, s, Configure(p, entry)), p, schedule)
  {
    hide TickInv, Timely, Step, InitialNextRun, IsArmed;
    if entry.next.None? || entry.next == s.pools[p].next {
      ConfigureKept(cal, s, p, entry, schedule);
    } else {
      var n :| Timely(cal, s, p, schedule, n) && entry.next == InitialNextRun(cal, entry.enabled, entry.schedule, n);
      ConfigureTicks(cal, s, p, entry, schedule, n);
    }
  }

  lemma QuietElsewhere(s: State, a: Action)
    ensures a.Ask? && a.id in s.rows ==>
              Respond(s.rows[a.id], a.op, a.id).effect.Nothing? && !Respond(s.rows[a.id], a.op, a.id).note.Fire?
    ensures a.Handle? && a.tid in s.handlers ==>
              !HandlerMove(s, s.handlers[a.tid]).effect.WritePool? && HandlerMove(s, s.handlers[a.tid]).note.Quiet?
    ensures a.SweepNext? && a.tid in s.sweeps ==>
              var m := SweepMove(s, s.sweeps[a.tid], a.id); !m.effect.WritePool? && !m.note.Fire?
  {
    hide Exec, StaleRows;
  }

  /** Settings of the pool change only in such ways, however often. */
  ghost predicate KeepsSchedule(cal: Calendar, s: State, acts: seq<Action>, p: PoolId, schedule: string) {
    && p in s.pools && ArmedWith(s.pools[p], schedule)
    && forall i :: 0 <= i < |acts| && acts[i].Configure? && acts[i].pool == p ==>
         KeepsTicks(cal, RunAll(cal, s, acts[..i]), p, acts[i].entry, schedule)
  }

  lemma KeepsPrefix(cal: Calendar, s: State, acts: seq<Action>, p: PoolId, schedule: string)
    requires acts != [] && KeepsSchedule(cal, s, acts, p, schedule)
    ensures KeepsSchedule(cal, s, acts[..|acts| - 1], p, schedule)
    ensures var a := acts[|acts| - 1]; a.Configure? && a.pool == p ==>
              KeepsTicks(cal, RunAll(cal, s, acts[..|acts| - 1]), p, a.entry, schedule)
  {
    hide KeepsTicks, RunAll, IsArmed;
    var init := acts[..|acts| - 1];
    forall i | 0 <= i < |init| && init[i].Configure? && init[i].pool == p
      ensures KeepsTicks(cal, RunAll(cal, s, init[..i]), p, init[i].entry, schedule) {
      assert init[..i] == acts[..i] && init[i] == acts[i];
    }
  }

  lemma {:induction false} TicksRun(cal: Calendar, s: State, acts: seq<Action>, p: PoolId, schedule: string)
    requires cal.Valid() && Init(s) && KeepsSchedule(cal, s, acts, p, schedule)
    ensures TickInv(cal, RunAll(cal, s, acts), p, schedule)
  {
    hide PlanOf, Schedule.Tick, Step, KeepsTicks, IsArmed;
    if acts != [] {
      var before, a := RunAll(cal, s, acts[..|acts| - 1]), acts[|acts| - 1];
      KeepsPrefix(cal, s, acts, p, schedule);
      TicksRun(cal, s, acts[..|acts| - 1], p, schedule);
      hide TickInv, WorkStep, KeepsSchedule;
      if a.Work? {
        WorkTicks(cal, before, a.choice, p, schedule);
        WorkIsStep(cal, before, a.choice);
      } else if a.Configure? && a.pool == p {
        SettingsTicks(cal, before, p, a.entry, schedule);
      } else {
        OtherTicks(cal, before, a, p, schedule);
      }
    }
  }

  lemma WorkIsStep(cal: Calendar, s: State, c: Choice)
    ensures Step(cal, s, Work(c)) == WorkStep(cal, s, c)
  {
    hide WorkStep;
  }

  /** Over any run in which the pool keeps its schedule while it is armed, and across crashes: two
      successive automatic-snapshot enqueues of the pool are separated by a selected instant, the one the
      later enqueue was due at, although finished jobs and changed settings rewrite the next run too. */
  lemma EnqueuesConsumeTicks(cal: Calendar, s: State, acts: seq<Action>, p: PoolId, schedule: string, k: nat)
    requires cal.Valid() && Init(s) && KeepsSchedule(cal, s, acts, p, schedule)
    requires 0 < k < |Fired(RunAll(cal, s, acts).log, p)|
    ensures
      var fs := Fired(RunAll(cal, s, acts).log, p);
      fs[k - 1].at < fs[k].tick <= fs[k].at && Tick(cal, PlanOf(schedule), fs[k].tick)
  {
    hide PlanOf, Schedule.Tick, RunAll, KeepsSchedule;
    TicksRun(cal, s, acts, p, schedule);
  }

  /** So enqueues inject into selected instants: later enqueues use strictly later ones. */
  lemma {:induction false} EnqueuesInject(cal: Calendar, s: State, acts: seq<Action>, p: PoolId, schedule: string, j: nat, k: nat)
    requires cal.Valid() && Init(s) && KeepsSchedule(cal, s, acts, p, schedule)
    requires j < k < |Fired(RunAll(cal, s, acts).log, p)|
    ensures Fired(RunAll(cal, s, acts).log, p)[j].tick < Fired(RunAll(cal, s, acts).log, p)[k].tick
    decreases k - j
  {
    hide PlanOf, Schedule.Tick, RunAll, KeepsSchedule;
    TicksRun(cal, s, acts, p, schedule);
    if j + 1 < k {
      EnqueuesInject(cal, s, acts, p, schedule, j + 1, k);
    }
  }
}
