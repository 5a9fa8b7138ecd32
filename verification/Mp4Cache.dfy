/** The cache of whole transcodes: for one cache path, requests, the lock they share, the temporary file
    and the cached file. A file in the cache is complete, and stays the same, over any interleaving and
    any crashes. */
module Mp4Cache {
  import opened Wrappers

  type RequestId = int

  /** A request's place: before the lock, holding it, or past it. Serving after a transcode still holds it. */
  datatype Phase =
    | Look | WantLock | Recheck | MakeDir | Encode | Rename | Clean(ok: bool) | Unlock(ok: bool)
    | Served | Failed

  /** The bytes a transcoder run has written, and whether it has ended well. */
  datatype Video = Video(author: RequestId, complete: bool)

  datatype State = State(requests: map<RequestId, Phase>, next: RequestId, holder: Option<RequestId>,
                         tmp: Option<Video>, cached: Option<Video>)

  datatype Event =
    | Arrive
    | Stat(id: RequestId)                // the first look for the cached file
    | Lock(id: RequestId)
    | StatAgain(id: RequestId)
    | Prepare(id: RequestId, ok: bool)   // make the cache directory
    | Truncate(id: RequestId)            // the transcoder opens its output, overwriting what is there
    | Exit(id: RequestId, ok: bool)
    | Move(id: RequestId, ok: bool)      // the rename to the cached name
    | RemoveTmp(id: RequestId)
    | Release(id: RequestId)
    | Crash

  const EMPTY := State(map[], 0, None, None, None)

  predicate At(s: State, id: RequestId, p: Phase) {
    id in s.requests && s.requests[id] == p
  }

  predicate Enabled(s: State, e: Event) {
    match e
    case Arrive => true
    case Stat(id) => At(s, id, Look)
    case Lock(id) => At(s, id, WantLock) && s.holder == None
    case StatAgain(id) => At(s, id, Recheck)
    case Prepare(id, _) => At(s, id, MakeDir)
    case Truncate(id) => At(s, id, Encode)
    case Exit(id, ok) => At(s, id, Encode) && (ok ==> s.tmp.Some? && s.tmp.value.author == id)
    case Move(id, ok) => At(s, id, Rename)
    case RemoveTmp(id) => id in s.requests && s.requests[id].Clean?
    case Release(id) => id in s.requests && s.requests[id].Unlock?
    case Crash => true
  }

  function Moved(s: State, id: RequestId, p: Phase): State {
    s.(requests := s.requests[id := p])
  }

  function Effect(s: State, e: Event): State
    requires Enabled(s, e)
  {
    match e
    case Arrive => s.(requests := s.requests[s.next := Look], next := s.next + 1)
    case Stat(id) => Moved(s, id, if s.cached.Some? then Served else WantLock)
    case Lock(id) => Moved(s, id, Recheck).(holder := Some(id))
    case StatAgain(id) => Moved(s, id, if s.cached.Some? then Unlock(true) else MakeDir)
    case Prepare(id, ok) => Moved(s, id, if ok then Encode else Unlock(false))
    case Truncate(id) => s.(tmp := Some(Video(id, false)))
    case Exit(id, ok) => Moved(s, id, if ok then Rename else Clean(false)).(tmp := if ok then Some(Video(id, true)) else s.tmp)
    case Move(id, ok) =>
      if ok && s.tmp.Some? then Moved(s, id, Clean(true)).(cached := s.tmp, tmp := None) else Moved(s, id, Clean(false))
    case RemoveTmp(id) => Moved(s, id, Unlock(s.requests[id].ok)).(tmp := None)
    case Release(id) => Moved(s, id, if s.requests[id].ok then Served else Failed).(holder := None)
    case Crash => State(map[], s.next, None, s.tmp, s.cached)
  }

  function Next(s: State, e: Event): State {
    if Enabled(s, e) then Effect(s, e) else s
  }

  function RunAll(s: State, es: seq<Event>): State {
    if es == [] then s else Next(RunAll(s, es[..|es| - 1]), es[|es| - 1])
  }

  lemma RunOne(s: State, es: seq<Event>, e: Event)
    ensures RunAll(s, es + [e]) == Next(RunAll(s, es), e)
    ensures RunAll(s, []) == s && RunAll(s, [e]) == Next(s, e)
  {
    hide Next;
    assert (es + [e])[..|es|] == es && [e][..0] == [];
  }

  // ---- The handler -----------------------------------------------------------------------------

  /** What a transcode does, in program order; the temporary file is removed by a deferred call. */
  function TranscodeTrace(id: RequestId, made: bool, encoded: bool, renamed: bool): seq<Event> {
    if !made then [Prepare(id, false)]
    else if !encoded then [Prepare(id, true)] + [Truncate(id)] + [Exit(id, false)] + [RemoveTmp(id)]
    else [Prepare(id, true)] + [Truncate(id)] + [Exit(id, true)] + [Move(id, renamed)] + [RemoveTmp(id)]
  }

  lemma TraceIs(id: RequestId, made: bool, encoded: bool, renamed: bool)
    ensures
      var begin := [Prepare(id, made)];
      var run := begin + [Truncate(id)] + [Exit(id, encoded)];
      TranscodeTrace(id, made, encoded, renamed)
      == if !made then begin else if encoded then run + [Move(id, renamed)] + [RemoveTmp(id)] else run + [RemoveTmp(id)]
  {
  }

  class Mp4Server {
    var requests: map<RequestId, Phase>
    var next: RequestId
    var holder: Option<RequestId>
    var tmp: Option<Video>
    var cached: Option<Video>

    ghost function Contents(): State
      reads this
    {
      State(requests, next, holder, tmp, cached)
    }

    method MakeDirectory(id: RequestId, ok: bool)
      requires At(Contents(), id, MakeDir)
      modifies this`requests
      ensures Contents() == Effect(old(Contents()), Prepare(id, ok))
      ensures At(Contents(), id, if ok then Encode else Unlock(false))
    {
      requests := requests[id := if ok then Encode else Unlock(false)];
    }

    method RunTranscoder(id: RequestId, ok: bool)
      requires At(Contents(), id, Encode)
      modifies this`requests, this`tmp
      ensures Contents() == Effect(Effect(old(Contents()), Truncate(id)), Exit(id, ok))
      ensures At(Contents(), id, if ok then Rename else Clean(false)) && (ok ==> tmp == Some(Video(id, true)))
    {
      tmp := Some(Video(id, false));
      if ok {
        tmp := Some(Video(id, true));
      }
      requests := requests[id := if ok then Rename else Clean(false)];
    }

    method MoveIntoPlace(id: RequestId, ok: bool)
      requires At(Contents(), id, Rename) && tmp.Some?
      modifies this`requests, this`tmp, this`cached
      ensures Contents() == Effect(old(Contents()), Move(id, ok))
      ensures At(Contents(), id, Clean(ok)) && cached == if ok then old(tmp) else old(cached)
    {
      if ok {
        cached, tmp := tmp, None;
      }
      requests := requests[id := Clean(ok)];
    }

    method RemoveTemporary(id: RequestId, ok: bool)
      requires At(Contents(), id, Clean(ok))
      modifies this`requests, this`tmp
      ensures Contents() == Effect(old(Contents()), RemoveTmp(id))
      ensures At(Contents(), id, Unlock(ok))
    {
      tmp := None;
      requests := requests[id := Unlock(ok)];
    }

    /** The transcode itself when nothing else moves. */
    method TranscodeToMP4(id: RequestId, made: bool, encoded: bool, renamed: bool) returns (ok: bool)
      requires At(Contents(), id, MakeDir)
      modifies this
      ensures Contents() == RunAll(old(Contents()), TranscodeTrace(id, made, encoded, renamed))
      ensures ok == (made && encoded && renamed) && At(Contents(), id, Unlock(ok))
      ensures if ok then cached == Some(Video(id, true)) else cached == old(cached)
    {
      hide RunAll, TranscodeTrace, Effect;
      ghost var s0 := Contents();
      ghost var trace := [Prepare(id, made)];
      RunOne(s0, [], Prepare(id, made));
      MakeDirectory(id, made);
      ok := false;
      if made {
        TranscoderSteps(s0, trace, id, encoded);
        RunTranscoder(id, encoded);
        trace := trace + [Truncate(id)] + [Exit(id, encoded)];
        if encoded {
          RunOne(s0, trace, Move(id, renamed));
          MoveIntoPlace(id, renamed);
          trace := trace + [Move(id, renamed)];
          ok := renamed;
        }
        RunOne(s0, trace, RemoveTmp(id));
        RemoveTemporary(id, ok);
        trace := trace + [RemoveTmp(id)];
      }
      TraceIs(id, made, encoded, renamed);
    }
  }

  lemma TranscoderSteps(s0: State, trace: seq<Event>, id: RequestId, ok: bool)
    requires At(RunAll(s0, trace), id, Encode)
    ensures Enabled(Effect(RunAll(s0, trace), Truncate(id)), Exit(id, ok))
    ensures
      RunAll(s0, trace + [Truncate(id)] + [Exit(id, ok)])
      == Effect(Effect(RunAll(s0, trace), Truncate(id)), Exit(id, ok))
  {
    hide RunAll;
    RunOne(s0, trace, Truncate(id));
    RunOne(s0, trace + [Truncate(id)], Exit(id, ok));
  }

  // ---- What every interleaving keeps -----------------------------------------------------------

  predicate Holding(p: Phase) {
    p != Look && p != WantLock && p != Served && p != Failed
  }

  /** What a request's place says about the shared state. */
  predicate RequestOk(s: State, id: RequestId)
    requires id in s.requests
  {
    var p := s.requests[id];
    && 0 <= id < s.next
    && (Holding(p) ==> s.holder == Some(id))
    && (p == MakeDir || p == Encode || p == Rename || p == Clean(false) || p == Unlock(false) ==> s.cached == None)
    && (p == Rename ==> s.tmp == Some(Video(id, true)))
    && (p == Clean(true) || p == Unlock(true) || p == Served ==> s.cached.Some?)
  }

  ghost predicate Inv(s: State) {
    && s.next >= 0
    && (forall id :: id in s.requests ==> RequestOk(s, id))
    && (s.cached.Some? ==> s.cached.value.complete)
    && (s.holder.Some? ==> s.holder.value in s.requests && Holding(s.requests[s.holder.value]))
  }

  lemma StepKeeps(s: State, e: Event)
    requires Inv(s)
    ensures Inv(Next(s, e))
    ensures s.cached.Some? ==> Next(s, e).cached == s.cached
  {
    var s' := Next(s, e);
    if Enabled(s, e) {
      if !e.Arrive? && !e.Crash? { assert RequestOk(s, e.id); }
      forall id | id in s'.requests ensures RequestOk(s', id) {
        if id in s.requests { assert RequestOk(s, id); }
      }
    }
  }

  lemma {:induction false} RunKeeps(es: seq<Event>)
    ensures Inv(RunAll(EMPTY, es))
  {
    if es != [] {
      RunKeeps(es[..|es| - 1]);
      StepKeeps(RunAll(EMPTY, es[..|es| - 1]), es[|es| - 1]);
    }
  }

  /** Present means complete, for whoever looks, whenever. */
  lemma PresentMeansComplete(es: seq<Event>)
    ensures
      var s := RunAll(EMPTY, es);
      && (s.cached.Some? ==> s.cached.value.complete)
      && (forall id :: id in s.requests && s.requests[id] == Served ==> s.cached.Some? && s.cached.value.complete)
  {
    RunKeeps(es);
    var s := RunAll(EMPTY, es);
    forall id | id in s.requests && s.requests[id] == Served ensures s.cached.Some? && s.cached.value.complete {
      assert RequestOk(s, id);
    }
  }

  /** One transcode is enough: once a file is in the cache it is never replaced, whatever happens later. */
  lemma {:induction false} CachedOnce(es: seq<Event>, more: seq<Event>)
    ensures RunAll(EMPTY, es).cached.Some? ==> RunAll(EMPTY, es + more).cached == RunAll(EMPTY, es).cached
  {
    if more == [] {
      assert es + more == es;
    } else {
      var init, e := more[..|more| - 1], more[|more| - 1];
      CachedOnce(es, init);
      assert (es + more)[..|es + more| - 1] == es + init;
      RunKeeps(es + init);
      StepKeeps(RunAll(EMPTY, es + init), e);
    }
  }

  /** Only the holder of the lock writes the temporary file, so two transcodes never share it. */
  lemma OneTranscoder(es: seq<Event>, a: RequestId, b: RequestId)
    ensures
      var s := RunAll(EMPTY, es);
      a in s.requests && b in s.requests && Holding(s.requests[a]) && Holding(s.requests[b]) ==> a == b
  {
    RunKeeps(es);
    var s := RunAll(EMPTY, es);
    if a in s.requests && b in s.requests {
      assert RequestOk(s, a) && RequestOk(s, b);
    }
  }
}
