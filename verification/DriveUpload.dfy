/** The upload to Google Drive: at most two attempts, the second with a refreshed token and with the
    source wound back to its start. The network is an environment that answers each call. */
module DriveUpload {
  import opened Wrappers

  type Bytes = seq<bv8>

  datatype Reply = Good | Unauthorized | Bad

  /** How a multipart request ends. Lost: the file was stored, but the answer never arrived. */
  datatype Delivery = Accepted | Expired | Refused | Lost

  datatype Found = NoChild | Child | LookupUnauthorized | LookupBad

  /** The answers met during one attempt. A send that does not succeed may have read part of the source. */
  datatype Attempt = Attempt(seeks: bool, parent: Reply, existing: Found, send: Delivery, consumed: nat, refreshes: bool)

  datatype Failure =
    | NotDrive | NoToken | BadTarget | SeekFailed | CannotRetry | ParentFailed | LookupFailed | Exists | SendFailed
    | RefreshFailed | OutOfAttempts

  /** An opened local file or another reader. */
  class Source {
    const bytes: Bytes
    const seekable: bool
    var pos: nat

    predicate Valid()
      reads this
    {
      pos <= |bytes|
    }

    constructor (bytes: Bytes, seekable: bool)
      ensures this.bytes == bytes && this.seekable == seekable && pos == 0
    {
      this.bytes, this.seekable, this.pos := bytes, seekable, 0;
    }
  }

  /** The remote folder: the files stored by completed multipart requests, oldest first. */
  class Remote {
    var stored: seq<Bytes>

    constructor ()
      ensures stored == []
    {
      stored := [];
    }

    /** One multipart request: it reads the source from its position. A refused one stores nothing; an
        accepted one stores what was left, and so does one whose answer is lost. */
    method Send(source: Source, reply: Delivery, consumed: nat)
      requires source.Valid()
      modifies this, source
      ensures source.Valid()
      ensures stored == if reply.Accepted? || reply.Lost? then old(stored) + [source.bytes[old(source.pos)..]] else old(stored)
    {
      if reply.Accepted? || reply.Lost? {
        stored := stored + [source.bytes[source.pos..]];
        source.pos := |source.bytes|;
      } else if source.pos + consumed <= |source.bytes| {
        source.pos := source.pos + consumed;
      }
    }
  }

  /** Every answer of the attempt is a good one. */
  predicate Passes(a: Attempt, seekable: bool) {
    (seekable ==> a.seeks) && a.parent.Good? && a.existing.NoChild? && a.send.Accepted?
  }

  /** The first bad answer of the attempt is that the token has expired. */
  predicate Expires(a: Attempt, seekable: bool) {
    && (seekable ==> a.seeks)
    && (a.parent.Unauthorized? || (a.parent.Good? && (a.existing.LookupUnauthorized? || (a.existing.NoChild? && a.send.Expired?))))
  }

  /** The upload goes through: at once, or with a refreshed token from the start of a source that can be
      wound back. */
  predicate GoesThrough(isDrive: bool, hasToken: bool, inRoot: bool, seekable: bool, first: Attempt, second: Attempt) {
    && isDrive && hasToken && inRoot
    && (Passes(first, seekable) || (Expires(first, seekable) && first.refreshes && seekable && Passes(second, seekable)))
  }

  /** The same by the answers: the first attempt meets only good ones; or its first bad one is an expired
      token, at the parent, the name or the request itself, which is refreshed, and the second attempt,
      which only a source that seeks gets, meets only good ones. */
  lemma ThroughIff(isDrive: bool, hasToken: bool, inRoot: bool, seekable: bool, first: Attempt, second: Attempt)
    ensures
      var (one, two) := ((first.parent, first.existing, first.send), (second.parent, second.existing, second.send));
      GoesThrough(isDrive, hasToken, inRoot, seekable, first, second) <==>
        && isDrive && hasToken && inRoot && (first.seeks || !seekable)
        && (one == (Good, NoChild, Accepted)
            || (seekable && second.seeks && first.refreshes && two == (Good, NoChild, Accepted)
                && (one.0 == Unauthorized || (one.0, one.1) == (Good, LookupUnauthorized) || one == (Good, NoChild, Expired))))
  {
  }

  /** What an upload is to store: the whole source from its first byte; for a reader that cannot seek,
      everything from where it stands. */
  function Whole(source: Source): Bytes
    requires source.Valid()
    reads source
  {
    if source.seekable then source.bytes else source.bytes[source.pos..]
  }

  /** UploadGoogleDriveReader. No failure means that exactly one file was stored, and it is the whole
      source, even when the first attempt had read part of it. A failure means that nothing was stored, or
      one whole file when an answer was lost; no attempt stores a part or a second file. */
  method UploadReader(isDrive: bool, hasToken: bool, inRoot: bool, source: Source, remote: Remote, attempts: seq<Attempt>)
    returns (r: Option<Failure>)
    requires source.Valid() && |attempts| == 2
    modifies source, remote
    ensures source.Valid()
    ensures r.None? ==> remote.stored == old(remote.stored) + [old(Whole(source))]
    ensures r.Some? && remote.stored != old(remote.stored) ==>
              && remote.stored == old(remote.stored) + [old(Whole(source))] && r == Some(SendFailed)
              && (attempts[0].send.Lost? || (attempts[0].refreshes && source.seekable && attempts[1].send.Lost?))
    ensures r.None? <==> GoesThrough(isDrive, hasToken, inRoot, source.seekable, attempts[0], attempts[1])
  {
    if !isDrive {
      return Some(NotDrive);
    }
    if !hasToken {
      return Some(NoToken);
    }
    if !inRoot {
      return Some(BadTarget);
    }
    for attempt := 0 to 2
      invariant source.Valid() && remote.stored == old(remote.stored)
      invariant attempt == 0 ==> source.pos == old(source.pos)
      invariant attempt > 0 ==> attempts[0].refreshes && Expires(attempts[0], source.seekable)
      invariant isDrive && hasToken && inRoot
      invariant attempt <= 1
    {
      var a := attempts[attempt];
      if source.seekable {
        if !a.seeks {
          return Some(SeekFailed);
        }
        source.pos := 0;
      } else if attempt > 0 {
        return Some(CannotRetry);
      }
      if !a.parent.Good? {
        if attempt == 0 && a.parent.Unauthorized? {
          if a.refreshes {
            continue;
          }
          return Some(RefreshFailed);
        }
        return Some(ParentFailed);
      }
      if a.existing.LookupUnauthorized? || a.existing.LookupBad? {
        if attempt == 0 && a.existing.LookupUnauthorized? {
          if a.refreshes {
            continue;
          }
          return Some(RefreshFailed);
        }
        return Some(LookupFailed);
      }
      if a.existing.Child? {
        return Some(Exists);
      }
      remote.Send(source, a.send, a.consumed);
      if !a.send.Accepted? {
        if attempt == 0 && a.send.Expired? {
          if a.refreshes {
            continue;
          }
          return Some(RefreshFailed);
        }
        return Some(SendFailed);
      }
      return None;
    }
    return Some(OutOfAttempts);
  }
}
