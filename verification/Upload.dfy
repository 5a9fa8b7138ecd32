/** The resumable upload server (tus 1.0.0: Core Protocol, Creation, Termination): requests with every
    failure and crash point, as a store value and as the server object that changes it step by step. */
module Upload {
  import opened Wrappers

  type UploadId = int
  type TargetPath = int
  type Bytes = seq<bv8>

  datatype Meta = Meta(cloud: bool, length: nat, offset: nat)

  /** A metadata file: readable, or left torn by a save that failed or was cut off half-way. */
  datatype Record = Readable(meta: Meta) | Torn

  /** One call of EnqueueCloudSync: the upload whose temp file it hands over, and the remote target. */
  datatype CloudJob = CloudJob(upload: UploadId, target: TargetPath)

  datatype Store = Store(records: map<UploadId, Record>, temps: map<UploadId, Bytes>, targets: map<TargetPath, Bytes>,
                         queue: seq<CloudJob>)

  /** Writing at a position: bytes beyond the end are padded with zeros, bytes past the data stay.
      Writing nothing changes nothing, also beyond the end. */
  function WriteAt(file: Bytes, at: nat, data: Bytes): Bytes {
    if data == [] then file
    else
      (if at <= |file| then file[..at] else file + seq(at - |file|, _ => 0)) + data
      + (if at + |data| <= |file| then file[at + |data|..] else [])
  }

  // ---- What the environment decides ------------------------------------------------------------

  datatype Save = Saved | NotSaved | TornSave

  /** How persistUploadedFile ends: a rename or a copy that moved the file, or a failure that left no
      target or an incomplete new one. */
  datatype Persist = Moved | Refused | Partial(bytes: Bytes)

  /** Finalisation: an error before anything is written, or a resolved target. */
  datatype Finalize = Rejected | Resolved(target: TargetPath, persist: Persist)

  /** Where the process dies during a request, if it does. */
  datatype CrashPoint = NoCrash | AfterWrite | AfterSave | AfterFinalize

  datatype PatchEnv = PatchEnv(busy: bool, opens: bool, copied: Option<nat>, save: Save, finalize: Finalize, crash: CrashPoint)

  /** A status with an optional Upload-Offset header; nothing when the process died. */
  datatype Response = Response(status: int, offset: Option<nat>) | NoResponse

  // ---- Requests on the store -------------------------------------------------------------------

  function Record404(st: Store, id: UploadId): bool {
    id !in st.records || st.records[id].Torn?
  }

  /** The bytes io.Copy wrote before it ended or failed. */
  function Written(body: Bytes, env: PatchEnv): Bytes {
    if env.copied.Some? && env.copied.value <= |body| then body[..env.copied.value] else body
  }

  predicate CopyFails(body: Bytes, env: PatchEnv) {
    env.copied.Some? && env.copied.value <= |body|
  }

  function Temp(st: Store, id: UploadId): Bytes {
    if id in st.temps then st.temps[id] else []
  }

  /** HandleTusCreate: an empty temp file, then the metadata. */
  function CreateStore(st: Store, id: UploadId, cloud: bool, length: nat, save: Save): Store {
    st.(temps := st.temps[id := []],
        records := match save
                   case Saved => st.records[id := Readable(Meta(cloud, length, 0))]
                   case NotSaved => st.records
                   case TornSave => st.records[id := Torn])
  }

  /** finalizeTusUpload and whether it succeeded. */
  function Finalized(st: Store, id: UploadId, meta: Meta, f: Finalize): (Store, bool) {
    match f
    case Rejected => (st, false)
    case Resolved(target, persist) =>
      if meta.cloud then (st.(queue := st.queue + [CloudJob(id, target)]), true)
      else if target in st.targets || id !in st.temps then (st, false)
      else
        match persist
        case Moved => (st.(targets := st.targets[target := st.temps[id]], temps := st.temps - {id}), true)
        case Refused => (st, false)
        case Partial(bytes) => (st.(targets := st.targets[target := bytes]), false)
  }

  /** The end of a completed upload: finalise, then drop the record, and the temp file too on failure. */
  function Completed(st: Store, id: UploadId, meta: Meta, env: PatchEnv): (Store, Response) {
    var (after, ok) := Finalized(st, id, meta, env.finalize);
    if env.crash.AfterFinalize? then (after, NoResponse)
    else if ok then (after.(records := after.records - {id}), Response(204, Some(meta.offset)))
    else (after.(records := after.records - {id}, temps := after.temps - {id}), Response(500, None))
  }

  /** HandleTusPatch after its checks: write, advance, save, and complete. */
  function Appended(st: Store, id: UploadId, meta: Meta, body: Bytes, env: PatchEnv): (Store, Response) {
    var wrote := st.(temps := st.temps[id := WriteAt(Temp(st, id), meta.offset, Written(body, env))]);
    var next := meta.(offset := meta.offset + |body|);
    if CopyFails(body, env) then (wrote, Response(500, None))
    else if env.crash.AfterWrite? then (wrote, NoResponse)
    else if next.offset > meta.length then (wrote, Response(400, None))
    else
      match env.save
      case NotSaved => (wrote, Response(500, None))
      case TornSave => (wrote.(records := wrote.records[id := Torn]), Response(500, None))
      case Saved =>
        var saved := wrote.(records := wrote.records[id := Readable(next)]);
        if env.crash.AfterSave? then (saved, NoResponse)
        else if next.offset == meta.length then Completed(saved, id, next, env)
        else (saved, Response(204, Some(next.offset)))
  }

  /** HandleTusPatch. The header offset is nothing when it does not parse or is negative. */
  function PatchStore(st: Store, id: UploadId, header: Option<nat>, body: Bytes, env: PatchEnv): (Store, Response) {
    if Record404(st, id) then (st, Response(404, None))
    else
      var meta := st.records[id].meta;
      if env.busy then (st, Response(409, Some(meta.offset)))
      else if header.None? then (st, Response(400, None))
      else if header.value != meta.offset then (st, Response(409, Some(meta.offset)))
      else if !env.opens then (st, Response(500, None))
      else Appended(st, id, meta, body, env)
  }

  /** HandleTusDelete: the temp file and the record, unless the record is missing or unreadable. */
  function DeleteStore(st: Store, id: UploadId): (Store, Response) {
    if id !in st.records then (st, Response(404, None))
    else if st.records[id].Torn? then (st, Response(500, None))
    else (st.(temps := st.temps - {id}, records := st.records - {id}), Response(204, None))
  }

  // ---- The server object -----------------------------------------------------------------------

  class UploadServer {
    var records: map<UploadId, Record>
    var temps: map<UploadId, Bytes>
    var targets: map<TargetPath, Bytes>
    var queue: seq<CloudJob>

    ghost function Contents(): Store
      reads this
    {
      Store(records, temps, targets, queue)
    }

    method HandleTusCreate(id: UploadId, cloud: bool, rawLength: Option<int>, save: Save) returns (r: Response)
      modifies this
      ensures rawLength.None? || rawLength.value < 0 ==> r == Response(400, None) && Contents() == old(Contents())
      ensures rawLength.Some? && rawLength.value >= 0 ==>
                && Contents() == CreateStore(old(Contents()), id, cloud, rawLength.value, save)
                && r == if save.Saved? then Response(201, Some(0)) else Response(500, None)
    {
      if rawLength.None? || rawLength.value < 0 {
        return Response(400, None);
      }
      temps := temps[id := []];
      match save
      case NotSaved => return Response(500, None);
      case TornSave =>
        records := records[id := Torn];
        return Response(500, None);
      case Saved =>
        records := records[id := Readable(Meta(cloud, rawLength.value, 0))];
        return Response(201, Some(0));
    }

    /** HEAD reports the stored offset, where the next PATCH must start. */
    method HandleTusHead(id: UploadId) returns (r: Response)
      ensures r == if Record404(Contents(), id) then Response(404, None) else Response(204, Some(records[id].meta.offset))
    {
      if id !in records || records[id].Torn? {
        return Response(404, None);
      }
      return Response(204, Some(records[id].meta.offset));
    }

    method FinalizeTusUpload(id: UploadId, meta: Meta, f: Finalize) returns (ok: bool)
      modifies this
      ensures (Contents(), ok) == Finalized(old(Contents()), id, meta, f)
    {
      if f.Rejected? {
        return false;
      }
      if meta.cloud {
        queue := queue + [CloudJob(id, f.target)];
        return true;
      }
      if f.target in targets || id !in temps {
        return false;
      }
      match f.persist
      case Moved =>
        targets := targets[f.target := temps[id]];
        temps := temps - {id};
        return true;
      case Refused => return false;
      case Partial(bytes) =>
        targets := targets[f.target := bytes];
        return false;
    }

    method HandleTusPatch(id: UploadId, header: Option<nat>, body: Bytes, env: PatchEnv) returns (r: Response)
      modifies this
      ensures (Contents(), r) == PatchStore(old(Contents()), id, header, body, env)
    {
      if id !in records || records[id].Torn? {
        return Response(404, None);
      }
      var meta := records[id].meta;
      if env.busy {
        return Response(409, Some(meta.offset));
      }
      if header.None? {
        return Response(400, None);
      }
      if header.value != meta.offset {
        return Response(409, Some(meta.offset));
      }
      if !env.opens {
        return Response(500, None);
      }
      var file := if id in temps then temps[id] else [];
      temps := temps[id := WriteAt(file, meta.offset, Written(body, env))];
      if CopyFails(body, env) {
        return Response(500, None);
      }
      if env.crash.AfterWrite? {
        return NoResponse;
      }
      meta := meta.(offset := meta.offset + |body|);
      if meta.offset > meta.length {
        return Response(400, None);
      }
      match env.save {
        case NotSaved => return Response(500, None);
        case TornSave =>
          records := records[id := Torn];
          return Response(500, None);
        case Saved =>
          records := records[id := Readable(meta)];
      }
      if env.crash.AfterSave? {
        return NoResponse;
      }
      if meta.offset == meta.length {
        var ok := FinalizeTusUpload(id, meta, env.finalize);
        if env.crash.AfterFinalize? {
          return NoResponse;
        }
        records := records - {id};
        if !ok {
          temps := temps - {id};
          return Response(500, None);
        }
      }
      return Response(204, Some(meta.offset));
    }

    method HandleTusDelete(id: UploadId) returns (r: Response)
      modifies this
      ensures (Contents(), r) == DeleteStore(old(Contents()), id)
    {
      if id !in records {
        return Response(404, None);
      }
      if records[id].Torn? {
        return Response(500, None);
      }
      temps := temps - {id};
      records := records - {id};
      return Response(204, None);
    }
  }
}
