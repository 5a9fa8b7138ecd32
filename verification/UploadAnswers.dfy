/** What the upload server answers, and what a client that believes the answer meets next. */
module UploadAnswers {
  import opened Wrappers
  import opened Upload
  import opened UploadProofs

  /** The stored offset of an upload with a readable record. */
  function StoredOffset(st: Store, id: UploadId): Option<nat> {
    if id in st.records && st.records[id].Readable? then Some(st.records[id].meta.offset) else None
  }

  function StoredLength(st: Store, id: UploadId): Option<nat> {
    if id in st.records && st.records[id].Readable? then Some(st.records[id].meta.length) else None
  }

  /** What each answer to a PATCH means. 204: the request started at the stored offset, all of the body was
      taken, and the answer is the offset after it, which is the stored one unless the upload is finished
      and its record gone. 409: the answer is the stored offset, and nothing changed. 404: there is no
      readable record, and nothing changed. 400 and 500: no offset is named and none advanced. */
  lemma PatchAnswers(st: Store, id: UploadId, header: Option<nat>, body: Bytes, env: PatchEnv)
    ensures
      var (st', r) := PatchStore(st, id, header, body, env);
      var offset, length, offset' := StoredOffset(st, id), StoredLength(st, id), StoredOffset(st', id);
      && (r == NoResponse || r.status == 204 || r.status == 400 || r.status == 404 || r.status == 409 || r.status == 500)
      && (r != NoResponse && r.status == 204 ==>
            && offset.Some? && header == offset && offset.value + |body| <= length.value
            && r.offset == Some(offset.value + |body|)
            && if offset.value + |body| == length.value then id !in st'.records else offset' == r.offset && StoredLength(st', id) == length)
      && (r != NoResponse && r.status == 409 ==> offset.Some? && r.offset == offset && st' == st && (env.busy || (header.Some? && header != offset)))
      && (r != NoResponse && r.status == 404 ==> offset.None? && r.offset == None && st' == st)
      && (r != NoResponse && (r.status == 400 || r.status == 500) ==> r.offset == None && (offset'.Some? ==> offset' == offset))
      && (offset.None? ==> r != NoResponse && r.status == 404)
      && (offset.Some? && !env.busy && header.None? ==> r != NoResponse && r.status == 400)
      && (offset.Some? && (env.busy || (header.Some? && header != offset)) ==> r != NoResponse && r.status == 409)
  {
    hide WriteAt, Written;
  }

  /** A body that fits, sent to where the upload stands, is answered 204, and so is its last part if the
      finalisation works, unless the environment fails on the way. */
  lemma GoodPatchIsTaken(st: Store, id: UploadId, body: Bytes, env: PatchEnv)
    requires StoredOffset(st, id).Some? && StoredOffset(st, id).value + |body| <= StoredLength(st, id).value
    requires !env.busy && env.opens && env.copied == None && env.save.Saved? && env.crash.NoCrash?
    requires
      st.records[id].meta.offset + |body| == st.records[id].meta.length ==>
        env.finalize.Resolved? && (st.records[id].meta.cloud || (env.finalize.target !in st.targets && env.finalize.persist.Moved?))
    ensures
      PatchStore(st, id, StoredOffset(st, id), body, env).1 == Response(204, Some(st.records[id].meta.offset + |body|))
  {
    hide WriteAt, Written;
  }

  /** A PATCH that starts where the last 204 said is not refused for its offset. */
  lemma AnsweredOffsetIsTaken(st: Store, id: UploadId, header: Option<nat>, body: Bytes, env: PatchEnv, more: Bytes, env': PatchEnv)
    requires var (st', r) := PatchStore(st, id, header, body, env); r != NoResponse && r.status == 204 && id in st'.records
    ensures
      var (st', r) := PatchStore(st, id, header, body, env);
      var r' := PatchStore(st', id, r.offset, more, env').1;
      r' != NoResponse && r'.status == 409 ==> env'.busy
  {
    PatchAnswers(st, id, header, body, env);
    var (st', r) := PatchStore(st, id, header, body, env);
    PatchAnswers(st', id, r.offset, more, env');
    hide PatchStore;
  }

  /** Over every run: the offset a 204 names is the number of bytes accepted so far, as long as the temp
      file was not removed under its record. */
  lemma AnswersCountBytes(es: seq<Event>, e: Event)
    requires e.Patch? && HasFile(RunAll(EMPTY, es), e.id)
    ensures
      var w := RunAll(EMPTY, es);
      var r := PatchStore(w.store, e.id, e.header, e.body, e.env).1;
      r != NoResponse && r.status == 204 ==> r.offset == Some(|Accepted(Next(w, e), e.id)|)
  {
    hide RunAll, PatchStore, Next, HasFile;
    var w := RunAll(EMPTY, es);
    CountInRuns(es, e.id);
    PatchAnswers(w.store, e.id, e.header, e.body, e.env);
    AnsweredIsAccepted(w, e);
  }

  lemma CountInRuns(es: seq<Event>, id: UploadId)
    ensures
      var w := RunAll(EMPTY, es);
      HasFile(w, id) && StoredOffset(w.store, id).Some? ==> |Accepted(w, id)| == StoredOffset(w.store, id).value
  {
    PrefixRun(es);
    assert UploadOk(RunAll(EMPTY, es), id);
    hide RunAll;
  }

  lemma AnsweredIsAccepted(w: World, e: Event)
    requires e.Patch?
    ensures
      var r := PatchStore(w.store, e.id, e.header, e.body, e.env).1;
      r != NoResponse && r.status == 204 ==> Accepted(Next(w, e), e.id) == Accepted(w, e.id) + e.body
  {
    hide WriteAt, Written;
  }

  /** A create whose save works leaves an upload of the announced length and kind at offset 0 with an empty
      temp file. One whose save fails leaves no readable record it would not have found. Nothing else
      changes. */
  lemma CreateAnswers(st: Store, id: UploadId, cloud: bool, length: nat, save: Save)
    ensures
      var st' := CreateStore(st, id, cloud, length, save);
      && (save.Saved? ==> StoredOffset(st', id) == Some(0) && StoredLength(st', id) == Some(length) && st'.records[id].meta.cloud == cloud)
      && (!save.Saved? && StoredOffset(st', id).Some? ==> st'.records == st.records)
      && id in st'.temps && st'.temps[id] == [] && st'.targets == st.targets && st'.queue == st.queue
      && (forall u :: u != id ==> StoredOffset(st', u) == StoredOffset(st, u) && StoredLength(st', u) == StoredLength(st, u)
                                  && (u in st'.temps <==> u in st.temps) && (u in st.temps ==> st'.temps[u] == st.temps[u]))
  {
  }

  /** A DELETE answered 204 leaves neither record nor temp file; any other leaves the store alone. */
  lemma DeleteAnswers(st: Store, id: UploadId)
    ensures
      var (st', r) := DeleteStore(st, id);
      && (r.Response? && (r.status == 204 || r.status == 404 || r.status == 500))
      && (r.status == 204 <==> StoredOffset(st, id).Some?) && (r.status == 404 <==> id !in st.records)
      && (r.status == 204 ==> id !in st'.records && id !in st'.temps && st'.targets == st.targets && st'.queue == st.queue)
      && (r.status != 204 ==> st' == st)
      && (forall u :: u != id ==> (u in st'.records <==> u in st.records) && (u in st'.temps <==> u in st.temps))
  {
  }
}
