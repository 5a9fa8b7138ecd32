/** The cache of streamed transcodes: one job for a directory at a time, directories removed only by their
    own job. After any run, crashes included, a directory holds what its jobs would have left one after
    another; from that follows exactly when it holds a complete stream. One step is one operation on the
    shared registry, one file operation, or one state change of the external transcoder. */
module HlsCache {
  import opened Wrappers

  type JobId = int
  type RequestId = int

  const MANIFEST := "index.m3u8"

  /** A job's place in its goroutine; Cleanup to Close are its deferred calls in the order they run. A crash
      ends every goroutine. */
  datatype Phase = Prepare | Transcode | Cleanup | Deregister | Close | Finished | Lost

  /** The job, the request that started it, and what it has done to its directory so far. */
  datatype Job = Job(dir: string, starter: RequestId, phase: Phase, cancelled: bool, completed: bool,
                     wrote: set<string>, removed: set<string>, wiped: bool)

  /** `requests` are those that found no manifest and have not started a job yet. Each file of a directory
      carries the job that wrote it last. */
  datatype State = State(requests: map<RequestId, string>, nextRequest: RequestId, jobs: map<JobId, Job>, next: JobId,
                         registry: map<string, JobId>, disk: map<string, map<string, JobId>>)

  datatype Event =
    | Look(dir: string)                  // a request looks for the manifest
    | Start(r: RequestId)                // LoadOrStore: a new job, or the one already registered
    | Cancel(id: JobId)                  // a stop request or the idle watcher, on a job they loaded before
    | MakeDir(id: JobId, ok: bool)
    | Write(id: JobId, file: string)     // the transcoder writes the manifest or a segment
    | Exit(id: JobId, ok: bool)          // the transcoder ends; it ends well only after writing its manifest
    | Remove(id: JobId, file: string)    // the removal of the directory takes one file
    | RemoveAll(id: JobId)               // and then whatever is left, unless the job completed
    | Delete(id: JobId)
    | CloseDone(id: JobId)
    | Crash

  const EMPTY := State(map[], 0, map[], 0, map[], map[])

  function Files(disk: map<string, map<string, JobId>>, dir: string): map<string, JobId> {
    if dir in disk then disk[dir] else map[]
  }

  predicate At(s: State, id: JobId, phase: Phase) {
    id in s.jobs && s.jobs[id].phase == phase
  }

  function NewJob(dir: string, r: RequestId): Job {
    Job(dir, r, Prepare, false, false, {}, {}, false)
  }

  function LostJobs(jobs: map<JobId, Job>): map<JobId, Job> {
    map id | id in jobs :: jobs[id].(phase := Lost)
  }

  predicate Enabled(s: State, e: Event) {
    match e
    case Look(_) => true
    case Start(r) => r in s.requests
    case Cancel(id) => id in s.jobs
    case MakeDir(id, _) => At(s, id, Prepare)
    case Write(id, _) => At(s, id, Transcode)
    case Exit(id, ok) => At(s, id, Transcode) && (ok ==> MANIFEST in s.jobs[id].wrote)
    case Remove(id, _) => At(s, id, Cleanup) && !s.jobs[id].completed
    case RemoveAll(id) => At(s, id, Cleanup)
    case Delete(id) => At(s, id, Deregister)
    case CloseDone(id) => At(s, id, Close)
    case Crash => true
  }

  /** A step of a job or of its transcoder. */
  predicate Inside(e: Event) {
    !e.Look? && !e.Start? && !e.Crash?
  }

  function JobAfter(j: Job, e: Event): (r: Job)
    requires Inside(e)
    ensures r.dir == j.dir && r.starter == j.starter
  {
    match e
    case Cancel(_) => j.(cancelled := true)
    case MakeDir(_, ok) => j.(phase := if ok then Transcode else Cleanup)
    case Write(_, file) => j.(wrote := j.wrote + {file})
    case Exit(_, ok) => j.(phase := Cleanup, completed := ok)
    case Remove(_, file) => j.(removed := j.removed + {file})
    case RemoveAll(_) => j.(phase := Deregister, wiped := j.wiped || !j.completed)
    case Delete(_) => j.(phase := Close)
    case CloseDone(_) => j.(phase := Finished)
  }

  function DiskAfter(disk: map<string, map<string, JobId>>, j: Job, e: Event): map<string, map<string, JobId>> {
    match e
    case MakeDir(_, ok) => if ok then disk[j.dir := Files(disk, j.dir)] else disk
    case Write(id, file) => disk[j.dir := Files(disk, j.dir)[file := id]]
    case Remove(_, file) => disk[j.dir := Files(disk, j.dir) - {file}]
    case RemoveAll(_) => if j.completed then disk else disk - {j.dir}
    case _ => disk
  }

  function Effect(s: State, e: Event): State
    requires Enabled(s, e)
  {
    match e
    case Look(dir) =>
      s.(requests := if MANIFEST in Files(s.disk, dir) then s.requests else s.requests[s.nextRequest := dir],
         nextRequest := s.nextRequest + 1)
    case Start(r) =>
      var dir := s.requests[r];
      var s' := s.(requests := s.requests - {r});
      if dir in s.registry then s'
      else s'.(jobs := s.jobs[s.next := NewJob(dir, r)], next := s.next + 1, registry := s.registry[dir := s.next])
    case Crash => State(map[], s.nextRequest, LostJobs(s.jobs), s.next, map[], s.disk)
    case _ =>
      var j := s.jobs[e.id];
      s.(jobs := s.jobs[e.id := JobAfter(j, e)], registry := if e.Delete? then s.registry - {j.dir} else s.registry,
         disk := DiskAfter(s.disk, j, e))
  }

  /** An event that cannot happen leaves the state alone. */
  function Next(s: State, e: Event): State {
    if Enabled(s, e) then Effect(s, e) else s
  }

  function RunAll(s: State, es: seq<Event>): State {
    if es == [] then s else Next(RunAll(s, es[..|es| - 1]), es[|es| - 1])
  }

  predicate CrashFree(es: seq<Event>) {
    forall i :: 0 <= i < |es| ==> !es[i].Crash?
  }

  // ---- The goroutine ---------------------------------------------------------------------------

  /** The steps of one job, in program order. */
  function JobTrace(id: JobId, made: bool, files: seq<string>, ok: bool): seq<Event> {
    [MakeDir(id, made)] + (if made then Writes(id, files) + [Exit(id, ok)] else []) + Deferred(id)
  }

  function Deferred(id: JobId): seq<Event> {
    [RemoveAll(id)] + [Delete(id)] + [CloseDone(id)]
  }

  function Writes(id: JobId, files: seq<string>): seq<Event> {
    if files == [] then [] else Writes(id, files[..|files| - 1]) + [Write(id, files[|files| - 1])]
  }

  lemma RunOne(s: State, es: seq<Event>, e: Event)
    ensures RunAll(s, es + [e]) == Next(RunAll(s, es), e)
  {
    hide Next;
    assert (es + [e])[..|es|] == es;
  }

  lemma RunTwo(s: State, es: seq<Event>, e: Event)
    ensures RunAll(s, es + [e]) == Next(RunAll(s, es), e)
    ensures RunAll(s, []) == s && RunAll(s, [] + [e]) == Next(s, e) && [] + [e] == [e]
  {
    hide Next;
    RunOne(s, es, e);
    RunOne(s, [], e);
  }

  lemma {:induction false} RunConcat(s: State, es: seq<Event>, fs: seq<Event>)
    ensures RunAll(s, es + fs) == RunAll(RunAll(s, es), fs)
  {
    hide Next;
    if fs == [] {
      assert es + fs == es;
    } else {
      var init, e := fs[..|fs| - 1], fs[|fs| - 1];
      RunConcat(s, es, init);
      assert es + fs == (es + init) + [e];
      RunOne(s, es + init, e);
    }
  }

  class HlsServer {
    var requests: map<RequestId, string>
    var nextRequest: RequestId
    var jobs: map<JobId, Job>
    var next: JobId
    var hlsJobs: map<string, JobId>
    var disk: map<string, map<string, JobId>>

    ghost function Contents(): State
      reads this
    {
      State(requests, nextRequest, jobs, next, hlsJobs, disk)
    }

    /** The manifest handler's stat: the request goes on to start a job only if there is no manifest. */
    method LookForManifest(dir: string) returns (r: Option<RequestId>)
      modifies this
      ensures Contents() == Next(old(Contents()), Look(dir))
      ensures r.None? <==> dir in old(disk) && "index.m3u8" in old(disk)[dir]
      ensures r.Some? ==> r.value in requests && requests[r.value] == dir
    {
      var id := nextRequest;
      nextRequest := nextRequest + 1;
      if dir in disk && MANIFEST in disk[dir] {
        return None;
      }
      requests := requests[id := dir];
      r := Some(id);
    }

    /** LoadOrStore: the registered job of the directory, or a new one that is now registered. */
    method StartHLSJob(r: RequestId) returns (id: JobId, loaded: bool)
      requires r in requests
      modifies this
      ensures Contents() == Next(old(Contents()), Start(r))
      ensures loaded == (old(requests)[r] in old(hlsJobs))
      ensures old(requests)[r] in hlsJobs && hlsJobs[old(requests)[r]] == id
    {
      var dir := requests[r];
      requests := requests - {r};
      if dir in hlsJobs {
        return hlsJobs[dir], true;
      }
      id, loaded := next, false;
      jobs := jobs[id := NewJob(dir, r)];
      next := next + 1;
      hlsJobs := hlsJobs[dir := id];
    }

    /** A stop request cancels the registered job, if there is one; it neither removes nor deregisters. */
    method HandleHLSStop(dir: string)
      requires dir in hlsJobs ==> hlsJobs[dir] in jobs
      modifies this
      ensures Contents() == if dir in old(hlsJobs) then Next(old(Contents()), Cancel(old(hlsJobs)[dir])) else old(Contents())
    {
      if dir in hlsJobs {
        var id := hlsJobs[dir];
        jobs := jobs[id := jobs[id].(cancelled := true)];
      }
    }

    method MakeDirectory(id: JobId, ok: bool)
      requires At(Contents(), id, Prepare)
      modifies this
      ensures Contents() == Effect(old(Contents()), MakeDir(id, ok))
    {
      var dir := jobs[id].dir;
      if ok {
        disk := disk[dir := if dir in disk then disk[dir] else map[]];
      }
      jobs := jobs[id := jobs[id].(phase := if ok then Transcode else Cleanup)];
    }

    method WriteFile(id: JobId, file: string)
      requires At(Contents(), id, Transcode)
      modifies this
      ensures Contents() == Effect(old(Contents()), Write(id, file))
    {
      var dir := jobs[id].dir;
      disk := disk[dir := (if dir in disk then disk[dir] else map[])[file := id]];
      jobs := jobs[id := jobs[id].(wrote := jobs[id].wrote + {file})];
    }

    method ExitTranscoder(id: JobId, ok: bool)
      requires At(Contents(), id, Transcode) && (ok ==> MANIFEST in jobs[id].wrote)
      modifies this
      ensures Contents() == Effect(old(Contents()), Exit(id, ok))
    {
      jobs := jobs[id := jobs[id].(phase := Cleanup, completed := ok)];
    }

    method RemoveDirectory(id: JobId)
      requires At(Contents(), id, Cleanup)
      modifies this
      ensures Contents() == Effect(old(Contents()), RemoveAll(id))
    {
      var j := jobs[id];
      if !j.completed {
        disk := disk - {j.dir};
      }
      jobs := jobs[id := j.(phase := Deregister, wiped := j.wiped || !j.completed)];
    }

    method DeleteEntry(id: JobId)
      requires At(Contents(), id, Deregister)
      modifies this
      ensures Contents() == Effect(old(Contents()), Delete(id))
    {
      hlsJobs := hlsJobs - {jobs[id].dir};
      jobs := jobs[id := jobs[id].(phase := Close)];
    }

    method CloseChannel(id: JobId)
      requires At(Contents(), id, Close)
      modifies this
      ensures Contents() == Effect(old(Contents()), CloseDone(id))
    {
      jobs := jobs[id := jobs[id].(phase := Finished)];
    }

    /** The job's goroutine when nothing else moves: it makes the directory, transcodes, then runs its
        deferred calls. Alone, it need not show the files going one by one. */
    method RunJob(id: JobId, made: bool, files: seq<string>, ok: bool)
      requires At(Contents(), id, Prepare)
      requires ok ==> MANIFEST in files
      modifies this
      ensures Contents() == RunAll(old(Contents()), JobTrace(id, made, files, ok))
      ensures At(Contents(), id, Finished)
    {
      hide Effect, Next, RunAll, Enabled, Writes, Deferred;
      ghost var s0 := Contents();
      ghost var work := [MakeDir(id, made)];
      RunTwo(s0, [], MakeDir(id, made));
      Made(s0, id, made);
      MakeDirectory(id, made);
      if made {
        RunConcat(s0, work, Writes(id, files));
        Transcoder(id, files);
        work := work + Writes(id, files);
        RunOne(s0, work, Exit(id, ok));
        Exited(Contents(), id, ok);
        ExitTranscoder(id, ok);
        work := work + [Exit(id, ok)];
      }
      RunConcat(s0, work, Deferred(id));
      assert work + Deferred(id) == JobTrace(id, made, files, ok);
      RunDeferred(id);
    }

    /** The external transcoder at work. */
    method Transcoder(id: JobId, files: seq<string>)
      requires At(Contents(), id, Transcode)
      modifies this
      ensures Contents() == RunAll(old(Contents()), Writes(id, files))
      ensures At(Contents(), id, Transcode) && (MANIFEST in files ==> MANIFEST in jobs[id].wrote)
    {
      hide Effect, Next, RunAll, Writes;
      ghost var s0 := Contents();
      RunTwo(s0, [], CloseDone(id));
      WritesAppend(id, [], "");
      for i := 0 to |files|
        invariant Contents() == RunAll(s0, Writes(id, files[..i]))
        invariant At(Contents(), id, Transcode) && (MANIFEST in files[..i] ==> MANIFEST in jobs[id].wrote)
      {
        assert files[..i + 1] == files[..i] + [files[i]];
        WritesAppend(id, files[..i], files[i]);
        RunOne(s0, Writes(id, files[..i]), Write(id, files[i]));
        WriteEffect(Contents(), id, files[i]);
        WriteFile(id, files[i]);
      }
      assert files[..|files|] == files;
    }

    /** The deferred calls, last to first: the directory goes unless the job completed, then the job
        leaves the registry, then its waiters are released. */
    method RunDeferred(id: JobId)
      requires At(Contents(), id, Cleanup)
      modifies this
      ensures Contents() == RunAll(old(Contents()), Deferred(id))
      ensures At(Contents(), id, Finished)
    {
      DeferredRun(Contents(), id);
      hide Effect, Next, RunAll, Deferred, Enabled;
      RemoveDirectory(id);
      DeleteEntry(id);
      CloseChannel(id);
    }
  }

  lemma Made(s: State, id: JobId, ok: bool)
    requires At(s, id, Prepare)
    ensures
      var s' := Effect(s, MakeDir(id, ok));
      Next(s, MakeDir(id, ok)) == s' && At(s', id, if ok then Transcode else Cleanup)
  {
  }

  lemma Exited(s: State, id: JobId, ok: bool)
    requires At(s, id, Transcode) && (ok ==> MANIFEST in s.jobs[id].wrote)
    ensures var s' := Effect(s, Exit(id, ok)); Next(s, Exit(id, ok)) == s' && At(s', id, Cleanup)
  {
  }

  lemma DeferredRun(s: State, id: JobId)
    requires At(s, id, Cleanup)
    ensures
      var gone := Effect(s, RemoveAll(id));
      && At(gone, id, Deregister)
      && var left := Effect(gone, Delete(id));
      && At(left, id, Close)
      && RunAll(s, Deferred(id)) == Effect(left, CloseDone(id))
      && At(RunAll(s, Deferred(id)), id, Finished)
  {
    RunTwo(s, [], RemoveAll(id));
    RunOne(s, [RemoveAll(id)], Delete(id));
    RunOne(s, [RemoveAll(id)] + [Delete(id)], CloseDone(id));
    hide RunAll;
  }

  lemma WritesAppend(id: JobId, files: seq<string>, file: string)
    ensures Writes(id, files + [file]) == Writes(id, files) + [Write(id, file)] && Writes(id, []) == []
  {
    assert (files + [file])[..|files|] == files;
  }

  lemma WriteEffect(s: State, id: JobId, file: string)
    requires At(s, id, Transcode)
    ensures
      var s' := Effect(s, Write(id, file));
      && Next(s, Write(id, file)) == s'
      && At(s', id, Transcode) && (file == MANIFEST || MANIFEST in s.jobs[id].wrote ==> MANIFEST in s'.jobs[id].wrote)
  {
  }
}
