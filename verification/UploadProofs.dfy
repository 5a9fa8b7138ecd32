/** What holds over every sequence of upload requests, failures and crashes. Requests on the store do
    not overlap. */
module UploadProofs {
  import opened Wrappers
  import opened Upload

  /** The store with its history: ids given out, those of cloud uploads, declared lengths, the bodies
      accepted so far, the uploads some body of which reached past the declared length, how often a crash hit
      the window between the delivery of an upload and the removal of its record, the uploads delivered
      without one, those a PATCH found without their temp file and made it again, and those a PATCH or a
      DELETE took effect on after a crash in that window. */
  datatype World = World(store: Store, issued: set<UploadId>, clouds: set<UploadId>, lengths: map<UploadId, nat>,
                         accepted: map<UploadId, Bytes>, overran: set<UploadId>, windowed: map<UploadId, nat>,
                         delivered: set<UploadId>, remade: set<UploadId>, touched: set<UploadId>)

  datatype Event =
    | Create(id: UploadId, cloud: bool, length: nat, save: Save)
    | Patch(id: UploadId, header: Option<nat>, body: Bytes, env: PatchEnv)
    | Terminate(id: UploadId)

  const EMPTY := World(Store(map[], map[], map[], []), {}, {}, map[], map[], {}, map[], {}, {}, {})

  /** The request gets past its checks and writes. */
  predicate Writes(st: Store, e: Event) {
    e.Patch? && !Record404(st, e.id) && !e.env.busy && e.header == Some(st.records[e.id].meta.offset) && e.env.opens
  }

  /** The request's body is accepted: the new offset is saved. */
  predicate Accepts(st: Store, e: Event) {
    && Writes(st, e) && !CopyFails(e.body, e.env) && !e.env.crash.AfterWrite? && e.env.save.Saved?
    && st.records[e.id].meta.offset + |e.body| <= st.records[e.id].meta.length
  }

  /** The request finalises its upload. */
  predicate Completes(st: Store, e: Event) {
    Accepts(st, e) && !e.env.crash.AfterSave? && st.records[e.id].meta.offset + |e.body| == st.records[e.id].meta.length
  }

  /** The finalisation gets a free target and the file system moves the file there. */
  predicate MovesTo(st: Store, f: Finalize) {
    f.Resolved? && f.target !in st.targets && f.persist.Moved?
  }

  /** The request's finalisation takes effect: a job is created, or the file moved to its target. */
  predicate Delivers(st: Store, e: Event) {
    Completes(st, e) && if st.records[e.id].meta.cloud then e.env.finalize.Resolved? else MovesTo(st, e.env.finalize)
  }

  predicate Overruns(st: Store, e: Event) {
    Writes(st, e) && st.records[e.id].meta.offset + |Written(e.body, e.env)| > st.records[e.id].meta.length
  }

  function WindowCrashes(w: World, id: UploadId): nat {
    if id in w.windowed then w.windowed[id] else 0
  }

  function Accepted(w: World, id: UploadId): Bytes {
    if id in w.accepted then w.accepted[id] else []
  }

  function Next(w: World, e: Event): World {
    match e
    case Create(id, cloud, length, save) =>
      if id in w.issued then w
      else w.(store := CreateStore(w.store, id, cloud, length, save), issued := w.issued + {id},
              clouds := if cloud then w.clouds + {id} else w.clouds,
              lengths := w.lengths[id := length], accepted := w.accepted[id := []])
    case Patch(id, header, body, env) =>
      w.(store := PatchStore(w.store, id, header, body, env).0,
         accepted := if Accepts(w.store, e) then w.accepted[id := Accepted(w, id) + body] else w.accepted,
         overran := if Overruns(w.store, e) then w.overran + {id} else w.overran,
         windowed := if Delivers(w.store, e) && env.crash.AfterFinalize?
                     then w.windowed[id := WindowCrashes(w, id) + 1] else w.windowed,
         delivered := if Delivers(w.store, e) && !env.crash.AfterFinalize? then w.delivered + {id} else w.delivered,
         remade := if Writes(w.store, e) && id !in w.store.temps then w.remade + {id} else w.remade,
         touched := if Writes(w.store, e) && WindowCrashes(w, id) > 0 then w.touched + {id} else w.touched)
    case Terminate(id) =>
      w.(store := DeleteStore(w.store, id).0,
         touched := if !Record404(w.store, id) && WindowCrashes(w, id) > 0 then w.touched + {id} else w.touched)
  }

  function RunAll(w: World, es: seq<Event>): World {
    if es == [] then w else Next(RunAll(w, es[..|es| - 1]), es[|es| - 1])
  }

  // ---- The prefix invariant --------------------------------------------------------------------

  /** A readable record agrees with its temp file: the offset is within the declared length, the file is
      at least that long and starts with the accepted bodies in order, and is no longer than the declared
      length unless some body overran it. */
  predicate Prefix(meta: Meta, temp: Bytes, length: nat, accepted: Bytes, overran: bool) {
    && meta.length == length && meta.offset <= meta.length && |accepted| == meta.offset
    && meta.offset <= |temp| && temp[..meta.offset] == accepted
    && (!overran ==> |temp| <= meta.length)
  }

  /** The temp file has not been removed under its record. */
  predicate HasFile(w: World, id: UploadId) {
    id in w.store.temps && id !in w.remade
  }

  ghost predicate UploadOk(w: World, id: UploadId) {
    id in w.store.records && w.store.records[id].Readable? ==>
      && (WindowCrashes(w, id) == 0 ==> HasFile(w, id))
      && (HasFile(w, id) ==>
            && id in w.lengths
            && Prefix(w.store.records[id].meta, w.store.temps[id], w.lengths[id], Accepted(w, id), id in w.overran))
  }

  lemma WriteKeepsPrefix(file: Bytes, at: nat, data: Bytes)
    requires at <= |file|
    ensures at + |data| <= |WriteAt(file, at, data)| && WriteAt(file, at, data)[..at + |data|] == file[..at] + data
    ensures |WriteAt(file, at, data)| == if at + |data| <= |file| then |file| else at + |data|
    ensures WriteAt(file, at, data)[..at] == file[..at]
  {
  }

  ghost predicate PrefixInv(w: World) {
    && (forall id :: id in w.store.records || id in w.remade ==> id in w.issued)
    && (forall id :: id in w.touched ==> WindowCrashes(w, id) > 0)
    && (forall id :: UploadOk(w, id))
  }

  lemma PatchKeepsOwn(w: World, e: Event)
    requires UploadOk(w, e.id) && e.Patch? && Writes(w.store, e) && HasFile(w, e.id)
    ensures UploadOk(Next(w, e), e.id)
  {
    var meta, file := w.store.records[e.id].meta, w.store.temps[e.id];
    var temp := WriteAt(file, meta.offset, Written(e.body, e.env));
    WriteKeepsPrefix(file, meta.offset, Written(e.body, e.env));
    if Accepts(w.store, e) {
      WholeBody(w.store, e);
      assert temp[..meta.offset + |e.body|] == Accepted(w, e.id) + e.body;
    }
    OwnPatch(w, e, temp);
    hide WriteAt, Written, Next, PatchStore;
  }

  /** What a PATCH that writes leaves of its own upload. */
  lemma OwnPatch(w: World, e: Event, temp: Bytes)
    requires e.Patch? && Writes(w.store, e) && HasFile(w, e.id)
    requires temp == WriteAt(w.store.temps[e.id], w.store.records[e.id].meta.offset, Written(e.body, e.env))
    ensures
      var w', id, old' := Next(w, e), e.id, w.store.records[e.id].meta;
      && w'.lengths == w.lengths && w'.remade == w.remade && WindowCrashes(w', id) >= WindowCrashes(w, id)
      && (id in w'.store.temps ==> w'.store.temps[id] == temp)
      && (id in w.overran ==> id in w'.overran) && (id in w'.overran <==> id in w.overran || Overruns(w.store, e))
      && (Accepts(w.store, e) ==> Accepted(w', id) == Accepted(w, id) + e.body) && (!Accepts(w.store, e) ==> Accepted(w', id) == Accepted(w, id))
      && (id in w'.store.records && w'.store.records[id].Readable? ==>
            && (WindowCrashes(w', id) == 0 ==> id in w'.store.temps)
            && w'.store.records[id].meta == if Accepts(w.store, e) then old'.(offset := old'.offset + |e.body|) else old')
  {
    hide WriteAt, Written;
  }

  lemma WholeBody(st: Store, e: Event)
    requires Accepts(st, e)
    ensures Written(e.body, e.env) == e.body
  {
  }

  predicate SameFor(st: Store, st': Store, id: UploadId) {
    && (id in st.records <==> id in st'.records) && (id in st.records ==> st'.records[id] == st.records[id])
    && (id in st.temps <==> id in st'.temps) && (id in st.temps ==> st'.temps[id] == st.temps[id])
  }

  lemma CompletedLeavesOthers(st: Store, u: UploadId, meta: Meta, env: PatchEnv, id: UploadId)
    requires id != u
    ensures SameFor(st, Completed(st, u, meta, env).0, id)
  {
  }

  /** A PATCH leaves the record and the temp file of every other upload alone. */
  lemma PatchLeavesOthers(st: Store, e: Event, id: UploadId)
    requires e.Patch? && id != e.id
    ensures SameFor(st, PatchStore(st, e.id, e.header, e.body, e.env).0, id)
  {
    if Completes(st, e) {
      var meta := st.records[e.id].meta;
      var next := meta.(offset := meta.offset + |e.body|);
      var saved := st.(temps := st.temps[e.id := WriteAt(Temp(st, e.id), meta.offset, Written(e.body, e.env))],
                       records := st.records[e.id := Readable(next)]);
      CompletedLeavesOthers(saved, e.id, next, e.env, id);
    }
    hide WriteAt, Written, CopyFails, Completed;
  }

  lemma PatchKeepsOthers(w: World, e: Event, id: UploadId)
    requires UploadOk(w, id) && e.Patch? && id != e.id
    ensures UploadOk(Next(w, e), id)
  {
    PatchLeavesOthers(w.store, e, id);
    hide PatchStore, Accepts, Overruns, Completes;
  }

  lemma PrefixStep(w: World, e: Event)
    requires PrefixInv(w)
    ensures PrefixInv(Next(w, e))
  {
    forall id ensures UploadOk(Next(w, e), id) {
      assert UploadOk(w, id);
      UploadStep(w, e, id);
    }
    IssuedStays(w, e);
    hide Next, UploadOk;
  }

  lemma UploadStep(w: World, e: Event, id: UploadId)
    requires UploadOk(w, id) && (id in w.store.records || id in w.remade ==> id in w.issued)
    ensures UploadOk(Next(w, e), id)
  {
    hide WriteAt, Written;
    if e.Patch? && id != e.id {
      PatchKeepsOthers(w, e, id);
    } else if e.Patch? && Writes(w.store, e) {
      if HasFile(w, id) {
        PatchKeepsOwn(w, e);
      } else {
        CrashesGrow(w, e, id);
      }
    }
  }

  lemma IssuedStays(w: World, e: Event)
    requires forall id :: id in w.store.records || id in w.remade ==> id in w.issued
    requires forall id :: id in w.touched ==> WindowCrashes(w, id) > 0
    ensures forall id :: id in Next(w, e).store.records || id in Next(w, e).remade ==> id in Next(w, e).issued
    ensures forall id :: id in Next(w, e).touched ==> WindowCrashes(Next(w, e), id) > 0
  {
    hide WriteAt, Written, Delivers, Accepts, Overruns;
  }

  lemma CrashesGrow(w: World, e: Event, u: UploadId)
    ensures WindowCrashes(Next(w, e), u) >= WindowCrashes(w, u)
    ensures (u in w.issued ==> u in Next(w, e).issued) && (u in w.touched ==> u in Next(w, e).touched)
  {
    hide PatchStore, Delivers, Accepts, Overruns;
  }

  lemma {:induction false} PrefixRun(es: seq<Event>)
    ensures PrefixInv(RunAll(EMPTY, es))
  {
    if es != [] {
      PrefixRun(es[..|es| - 1]);
      PrefixStep(RunAll(EMPTY, es[..|es| - 1]), es[|es| - 1]);
    }
  }

  /** In every run, for every upload whose temp file was not removed under its record, which only a crash
      between its delivery and the removal of that record makes possible: the offset lies within the declared
      length, the temp file is at least that long, its first Offset bytes are the accepted bodies in order,
      and it never grows past the declared length unless some body overran it. Failed partial writes,
      rejected overlong bodies and crashes at any other moment all keep this. */
  lemma UploadPrefix(es: seq<Event>, id: UploadId)
    requires var w := RunAll(EMPTY, es); id in w.store.records && w.store.records[id].Readable?
    ensures var w := RunAll(EMPTY, es); WindowCrashes(w, id) == 0 ==> HasFile(w, id)
    ensures
      var w := RunAll(EMPTY, es);
      var meta := w.store.records[id].meta;
      HasFile(w, id) ==>
        && 0 <= meta.offset <= meta.length && meta.offset <= |w.store.temps[id]|
        && w.store.temps[id][..meta.offset] == Accepted(w, id)
        && (id !in w.overran ==> |w.store.temps[id]| <= meta.length)
  {
    PrefixRun(es);
    assert UploadOk(RunAll(EMPTY, es), id);
    hide RunAll;
  }

  // ---- Finalisation ----------------------------------------------------------------------------

  /** The bytes are what the client uploaded: all accepted bodies in order fill the declared length, the
      bytes start with them, and are exactly them if no body overran that length. */
  predicate Complete(w: World, id: UploadId, bytes: Bytes) {
    && id in w.lengths && |Accepted(w, id)| == w.lengths[id] <= |bytes|
    && bytes[..w.lengths[id]] == Accepted(w, id)
    && (id !in w.overran ==> bytes == Accepted(w, id))
  }

  /** The temp file when the request finalises. */
  function FinalFile(st: Store, e: Event): Bytes
    requires Writes(st, e)
  {
    WriteAt(Temp(st, e.id), st.records[e.id].meta.offset, Written(e.body, e.env))
  }

  /** The request that brings the offset to the declared length finalises once. The record is gone on
      both outcomes. A cloud upload becomes exactly one job whose file holds the uploaded bytes, or no
      job and no file; a local upload becomes a new target holding them, or leaves no file; a target
      that existed is never changed. */
  lemma FinalisesOnce(w: World, e: Event)
    requires PrefixInv(w) && Completes(w.store, e) && HasFile(w, e.id) && !e.env.crash.AfterFinalize?
    ensures
      var w', file, cloud := Next(w, e), FinalFile(w.store, e), w.store.records[e.id].meta.cloud;
      && e.id !in w'.store.records
      && Complete(w', e.id, file)
      && (forall t :: t in w.store.targets ==> t in w'.store.targets && w'.store.targets[t] == w.store.targets[t])
      && (cloud && e.env.finalize.Resolved? ==>
            w'.store.queue == w.store.queue + [CloudJob(e.id, e.env.finalize.target)]
            && e.id in w'.store.temps && w'.store.temps[e.id] == file)
      && (!(cloud && e.env.finalize.Resolved?) ==> w'.store.queue == w.store.queue && e.id !in w'.store.temps)
      && (!cloud && MovesTo(w.store, e.env.finalize) ==> w'.store.targets == w.store.targets[e.env.finalize.target := file])
      && (cloud || !e.env.finalize.Resolved? || e.env.finalize.persist.Refused? ==> w'.store.targets == w.store.targets)
  {
    FinishedIsComplete(w, e);
    hide WriteAt, Written, PrefixInv;
  }

  /** The file a request finalises is what the client uploaded, whether or not a crash follows. */
  lemma FinishedIsComplete(w: World, e: Event)
    requires PrefixInv(w) && Completes(w.store, e) && HasFile(w, e.id)
    ensures Complete(Next(w, e), e.id, FinalFile(w.store, e))
  {
    assert UploadOk(w, e.id);
    var meta, old' := w.store.records[e.id].meta, w.store.temps[e.id];
    var data := Written(e.body, e.env);
    assert data == e.body;
    WriteKeepsPrefix(old', meta.offset, data);
    var file := FinalFile(w.store, e);
    assert file[..meta.length] == Accepted(w, e.id) + e.body;
    assert e.id !in Next(w, e).overran ==> file == file[..meta.length];
    hide WriteAt, Written, PrefixInv;
  }

  /** Once an issued upload has no record it never gets one again, nothing touches its temp file or its
      history any more, and every request on it is answered 404. */
  ghost predicate SameUpload(w: World, w': World, id: UploadId) {
    && id in w'.issued && id !in w'.store.records
    && (id in w.store.temps <==> id in w'.store.temps)
    && (id in w.store.temps ==> w'.store.temps[id] == w.store.temps[id])
    && Accepted(w', id) == Accepted(w, id) && (id in w.overran <==> id in w'.overran)
    && (id in w.lengths <==> id in w'.lengths) && (id in w.lengths ==> w.lengths[id] == w'.lengths[id])
  }

  lemma DoneStep(w: World, e: Event, id: UploadId)
    requires id in w.issued && id !in w.store.records
    ensures SameUpload(w, Next(w, e), id)
  {
    if e.Patch? && e.id == id {
      assert !Writes(w.store, e) && PatchStore(w.store, id, e.header, e.body, e.env).0 == w.store;
    } else if e.Patch? {
      PatchLeavesOthers(w.store, e, id);
    }
    hide PatchStore, Writes;
  }

  lemma {:induction false} DoneIsDone(w: World, es: seq<Event>, id: UploadId, header: Option<nat>, body: Bytes, env: PatchEnv)
    requires id in w.issued && id !in w.store.records
    ensures SameUpload(w, RunAll(w, es), id)
    ensures PatchStore(RunAll(w, es).store, id, header, body, env) == (RunAll(w, es).store, Response(404, None))
  {
    hide Next;
    if es != [] {
      DoneIsDone(w, es[..|es| - 1], id, header, body, env);
      DoneStep(RunAll(w, es[..|es| - 1]), es[|es| - 1], id);
    }
  }

  /** How many jobs were created for an upload. */
  function JobsFor(queue: seq<CloudJob>, id: UploadId): nat {
    if queue == [] then 0
    else JobsFor(queue[..|queue| - 1], id) + (if queue[|queue| - 1].upload == id then 1 else 0)
  }

  /** One job for each crash in the window, and one for a delivery without such a crash. */
  function ExpectedJobs(w: World, id: UploadId): nat {
    if id in w.clouds then WindowCrashes(w, id) + (if id in w.delivered then 1 else 0) else 0
  }

  /** The jobs of a cloud upload are counted exactly; a local one has none. */
  ghost predicate JobsInv(w: World, id: UploadId) {
    && (id in w.store.records ==> id in w.issued && id !in w.delivered)
    && (id in w.store.records && w.store.records[id].Readable? ==> (w.store.records[id].meta.cloud <==> id in w.clouds))
    && (id !in w.issued ==> id !in w.clouds && id !in w.delivered && WindowCrashes(w, id) == 0)
    && JobsFor(w.store.queue, id) == ExpectedJobs(w, id)
  }

  lemma JobsSnoc(queue: seq<CloudJob>, j: CloudJob, id: UploadId)
    ensures JobsFor(queue + [j], id) == JobsFor(queue, id) + (if j.upload == id then 1 else 0)
  {
    assert (queue + [j])[..|queue|] == queue;
  }

  /** What a PATCH does to the queue and to which uploads have a record. */
  lemma PatchQueue(st: Store, e: Event)
    requires e.Patch?
    ensures
      var st' := PatchStore(st, e.id, e.header, e.body, e.env).0;
      && st'.queue == (if Completes(st, e) && st.records[e.id].meta.cloud && e.env.finalize.Resolved?
                       then st.queue + [CloudJob(e.id, e.env.finalize.target)] else st.queue)
      && (forall i :: i in st'.records ==> i in st.records)
      && (forall i :: i in st'.records && st'.records[i].Readable? ==>
            st.records[i].Readable? && st'.records[i].meta.cloud == st.records[i].meta.cloud)
      && (Completes(st, e) && !e.env.crash.AfterFinalize? ==> e.id !in st'.records)
  {
    hide WriteAt, Written;
  }

  lemma JobsStep(w: World, e: Event, id: UploadId)
    requires JobsInv(w, id)
    ensures JobsInv(Next(w, e), id)
  {
    if e.Patch? {
      JobsPatch(w, e, id);
    }
    hide JobsFor, PatchStore;
  }

  lemma JobsPatch(w: World, e: Event, id: UploadId)
    requires JobsInv(w, id) && e.Patch?
    ensures JobsInv(Next(w, e), id)
  {
    hide PatchStore, Accepts, Overruns, JobsFor;
    PatchQueue(w.store, e);
    if Completes(w.store, e) {
      HasRecord(w.store, e);
      if e.env.finalize.Resolved? {
        JobsSnoc(w.store.queue, CloudJob(e.id, e.env.finalize.target), id);
      }
    }
    hide Completes;
  }

  lemma HasRecord(st: Store, e: Event)
    requires Completes(st, e)
    ensures e.id in st.records && st.records[e.id].Readable?
  {
  }

  /** In every run, a cloud upload has exactly one job for each crash between the creation of its job and the
      removal of its record, and one more if it was delivered without such a crash, after which it has no
      record; so without such a crash it has exactly one job or none. A local upload never has a job. */
  lemma {:induction false} JobsPerUpload(es: seq<Event>, id: UploadId)
    ensures
      var w := RunAll(EMPTY, es);
      JobsFor(w.store.queue, id) == ExpectedJobs(w, id) && (id in w.delivered ==> id !in w.store.records)
    ensures JobsInv(RunAll(EMPTY, es), id)
  {
    hide Next;
    if es != [] {
      JobsPerUpload(es[..|es| - 1], id);
      JobsStep(RunAll(EMPTY, es[..|es| - 1]), es[|es| - 1], id);
    }
  }

  const CRASH_ENV := PatchEnv(false, true, None, Saved, Resolved(0, Moved), AfterFinalize)
  const QUIET_ENV := PatchEnv(false, true, None, Saved, Resolved(0, Moved), NoCrash)

  /** The bound is reached: a crash in the window leaves a record whose offset equals its length, an
      empty PATCH then finalises again, and the upload has two jobs for one file. */
  lemma CrashDuplicatesJob()
    ensures
      var es := [Create(7, true, 1, Saved), Patch(7, Some(0), [5], CRASH_ENV), Patch(7, Some(1), [], QUIET_ENV)];
      JobsFor(RunAll(EMPTY, es).store.queue, 7) == 2
  {
    hide Next, JobsFor;
    var e0, e1, e2 := Create(7, true, 1, Saved), Patch(7, Some(0), [5], CRASH_ENV), Patch(7, Some(1), [], QUIET_ENV);
    var w1 := Next(EMPTY, e0);
    var w2 := Next(w1, e1);
    var w3 := Next(w2, e2);
    FirstJob(w1, w2);
    SecondJob(w2, w3);
    assert [e0, e1, e2][..2] == [e0, e1] && [e0, e1][..1] == [e0] && [e0][..0] == [];
    assert RunAll(EMPTY, [e0]) == w1;
    assert RunAll(EMPTY, [e0, e1]) == w2;
    TwoJobs();
  }

  lemma FirstJob(w1: World, w2: World)
    requires w1 == Next(EMPTY, Create(7, true, 1, Saved)) && w2 == Next(w1, Patch(7, Some(0), [5], CRASH_ENV))
    ensures 7 in w2.store.records && w2.store.records[7] == Readable(Meta(true, 1, 1)) && w2.store.queue == [CloudJob(7, 0)]
  {
  }

  lemma SecondJob(w2: World, w3: World)
    requires w3 == Next(w2, Patch(7, Some(1), [], QUIET_ENV))
    requires 7 in w2.store.records && w2.store.records[7] == Readable(Meta(true, 1, 1)) && w2.store.queue == [CloudJob(7, 0)]
    ensures w3.store.queue == [CloudJob(7, 0), CloudJob(7, 0)]
  {
  }

  lemma TwoJobs()
    ensures JobsFor([CloudJob(7, 0), CloudJob(7, 0)], 7) == 2
  {
    JobsSnoc([CloudJob(7, 0)], CloudJob(7, 0), 7);
    JobsSnoc([], CloudJob(7, 0), 7);
    assert [] + [CloudJob(7, 0)] == [CloudJob(7, 0)];
    assert [CloudJob(7, 0)] + [CloudJob(7, 0)] == [CloudJob(7, 0), CloudJob(7, 0)];
  }
}
