/** The steps one thread takes within a run of the job engine. */
module JobTraces {
  import opened Wrappers
  import opened Schedule
  import opened JobRows
  import opened JobEngine

  /** The worker, or the request and the sweep with one thread id. */
  datatype Who = TheWorker | Client(tid: Thread)

  predicate Mine(who: Who, a: Action) {
    match who
    case TheWorker => a.Work?
    case Client(tid) => ((a.Ask? || a.Handle?) && a.tid == tid) || ((a.SweepList? || a.SweepNext?) && a.tid == tid)
  }

  /** Steps of other threads; nobody dies. */
  predicate OfOthers(acts: seq<Action>, who: Who) {
    forall i :: 0 <= i < |acts| ==> !Mine(who, acts[i]) && !acts[i].Crash?
  }

  /** What a thread's own steps did to the shared data, in order. */
  function Effects(cal: Calendar, s: State, acts: seq<Action>, who: Who): seq<Effect> {
    if acts == [] then []
    else
      var init, a := acts[..|acts| - 1], acts[|acts| - 1];
      if Mine(who, a) then Effects(cal, s, init, who) + [EffectOf(cal, RunAll(cal, s, init), a)] else Effects(cal, s, init, who)
  }

  lemma EffectsOne(cal: Calendar, s: State, acts: seq<Action>, who: Who, a: Action)
    requires Mine(who, a)
    ensures Effects(cal, s, acts + [a], who) == Effects(cal, s, acts, who) + [EffectOf(cal, RunAll(cal, s, acts), a)]
  {
    hide EffectOf, RunAll, Mine;
    assert (acts + [a])[..|acts|] == acts;
  }

  lemma {:induction false} EffectsOthers(cal: Calendar, s: State, acts: seq<Action>, who: Who, more: seq<Action>)
    requires OfOthers(more, who)
    ensures Effects(cal, s, acts + more, who) == Effects(cal, s, acts, who)
  {
    hide EffectOf, RunAll, Mine;
    if more == [] {
      assert acts + more == acts;
    } else {
      EffectsOthers(cal, s, acts, who, more[..|more| - 1]);
      assert (acts + more)[..|acts + more| - 1] == acts + more[..|more| - 1];
    }
  }

  /** The places of a thread in its own code. */
  predicate SamePlaces(s: State, s': State, who: Who) {
    match who
    case TheWorker => s'.worker == s.worker
    case Client(tid) => Lookup(s'.handlers, tid) == Lookup(s.handlers, tid) && Lookup(s'.sweeps, tid) == Lookup(s.sweeps, tid)
  }

  lemma ThreadWaits1(cal: Calendar, s: State, a: Action, who: Who)
    requires !Mine(who, a) && !a.Crash?
    ensures SamePlaces(s, Step(cal, s, a), who)
  {
    hide WorkerMove, CrashStep, CanSubmit, Respond, HandlerMove, SweepMove, RunningRows, RowsAfter, FilesAfter, IssuedAfter,
      LogAfter, RegAfter, PoolsAfter;
  }

  /** Other threads do not move a thread. */
  lemma {:induction false} ThreadWaits(cal: Calendar, s: State, acts: seq<Action>, who: Who)
    requires OfOthers(acts, who)
    ensures SamePlaces(s, RunAll(cal, s, acts), who)
  {
    hide Step, Mine;
    if acts != [] {
      ThreadWaits(cal, s, acts[..|acts| - 1], who);
      ThreadWaits1(cal, RunAll(cal, s, acts[..|acts| - 1]), acts[|acts| - 1], who);
    }
  }

  /** Only the worker sends. */
  lemma SendsNothing1(cal: Calendar, s: State, a: Action)
    requires !a.Work?
    ensures Step(cal, s, a).log.sent == s.log.sent
  {
    NotesNothingSent(s, a);
    hide WorkerMove, CanSubmit, Respond, HandlerMove, SweepMove, RunningRows, RowsAfter, FilesAfter, IssuedAfter,
      RegAfter, PoolsAfter, AcceptedAfter, ResumesAfter, OrphansAfter, SharedPaths, Fired, Place;
  }

  lemma NotesNothingSent(s: State, a: Action)
    ensures a.Ask? && a.id in s.rows ==> !Respond(s.rows[a.id], a.op, a.id).note.Sent?
    ensures a.Handle? && a.tid in s.handlers ==> !HandlerMove(s, s.handlers[a.tid]).note.Sent?
    ensures a.SweepNext? && a.tid in s.sweeps ==> !SweepMove(s, s.sweeps[a.tid], a.id).note.Sent?
  {
    hide StaleRows, StatusOf;
  }

  lemma {:induction false} SendsNothing(cal: Calendar, s: State, acts: seq<Action>)
    requires OfOthers(acts, TheWorker)
    ensures RunAll(cal, s, acts).log.sent == s.log.sent
  {
    hide Step;
    if acts != [] {
      SendsNothing(cal, s, acts[..|acts| - 1]);
      SendsNothing1(cal, RunAll(cal, s, acts[..|acts| - 1]), acts[|acts| - 1]);
    }
  }

  /** The state a run is in after some of its steps. */
  function Past(cal: Calendar, s: State, trace: seq<Action>, at: nat): State
    requires at <= |trace|
  {
    RunAll(cal, s, trace[..at])
  }

  lemma PastStays(cal: Calendar, s: State, trace: seq<Action>, longer: seq<Action>, at: nat)
    requires trace <= longer && at <= |trace|
    ensures Past(cal, s, longer, at) == Past(cal, s, trace, at)
  {
    hide RunAll;
    assert longer[..at] == trace[..at];
  }

  lemma PastNow(cal: Calendar, s: State, trace: seq<Action>)
    ensures Past(cal, s, trace, |trace|) == RunAll(cal, s, trace)
  {
    hide RunAll;
    assert trace[..|trace|] == trace;
  }
}
