/** cmd/agent/files.go: one upload session's temporary file, written chunk by chunk and then finished. */
module UploadSessions {
  import opened Prelude

  const MAX_UPLOAD_CHUNK_BYTES := 512 * 1024
  const MAX_INT64 := 0x7FFF_FFFF_FFFF_FFFF

  /** `data` is what the temporary file holds; `expected` is -1 when the length is unknown. */
  datatype Session = Session(expected: int, data: seq<byte>, written: int)

  /** The write call: everything went out, or it failed after `kept` bytes. */
  datatype WriteIo = Wrote | Short(kept: nat)

  datatype UploadError =
    | Undecodable | ChunkTooLarge | SizeOverflow | ExceedsMaximum | WriteFailed
    | SyncFailed | SizeMismatch | ChmodFailed | CloseFailed | RenameFailed

  /** The counter agrees with the file and has respected both bounds. */
  predicate Sound(max: nat, u: Session) {
    u.written == |u.data| && u.written <= MAX_INT64 && (max > 0 ==> u.written <= max)
  }

  /** writeUploadChunk; `chunk` is None when the base64 text does not decode. */
  function AfterWrite(max: nat, u: Session, chunk: Option<seq<byte>>, io: WriteIo): (Session, Option<UploadError>) {
    if chunk.None? then (u, Some(Undecodable)) else
    var b := chunk.value;
    if |b| > MAX_UPLOAD_CHUNK_BYTES then (u, Some(ChunkTooLarge))
    else if u.written > MAX_INT64 - |b| then (u, Some(SizeOverflow))
    else if max > 0 && (u.written > max || |b| > max - u.written) then (u, Some(ExceedsMaximum))
    else
      var n := if io.Wrote? then |b| else Min(io.kept, |b|);
      (u.(data := u.data + b[..n], written := u.written + n), if io.Wrote? then None else Some(WriteFailed))
  }

  /**
   A chunk is accepted exactly when it decodes, is small enough, fits under both limits and is
   written whole; the file then grows by exactly that chunk, and the bounds survive every outcome.
   */
  lemma {:induction false} WriteAcceptsExactly(max: nat, u: Session, chunk: Option<seq<byte>>, io: WriteIo)
    requires Sound(max, u)
    ensures var (v, err) := AfterWrite(max, u, chunk, io);
      && Sound(max, v) && u.data <= v.data && v.expected == u.expected
      && (err.None? <==>
            && chunk.Some? && io.Wrote? && |chunk.value| <= MAX_UPLOAD_CHUNK_BYTES
            && |u.data| + |chunk.value| <= MAX_INT64
            && (max > 0 ==> |u.data| + |chunk.value| <= max))
      && (err.None? ==> v.data == u.data + chunk.value)
  {
    if chunk.Some? {
      assert chunk.value[..|chunk.value|] == chunk.value;
    }
  }

  /** Which of finishUpload's system calls succeed; `targetExists` is checked by the no-replace rename. */
  datatype FinishIo = FinishIo(synced: bool, moded: bool, closed: bool, renamed: bool)

  const ALL_FINE := FinishIo(true, true, true, true)

  function FinishError(u: Session, io: FinishIo, targetExists: bool): Option<UploadError> {
    if !io.synced then Some(SyncFailed)
    else if u.expected >= 0 && u.expected != u.written then Some(SizeMismatch)
    else if !io.moded then Some(ChmodFailed)
    else if !io.closed then Some(CloseFailed)
    else if targetExists || !io.renamed then Some(RenameFailed)
    else None
  }

  /** The session object whose `written` the worker updates in place. */
  class Upload {
    const expected: int
    var data: seq<byte>
    var written: int
    var open: bool

    ghost function Value(): Session
      reads this
    {
      Session(expected, data, written)
    }

    constructor (expected: int)
      ensures Value() == Session(expected, [], 0) && open
    {
      this.expected := expected;
      data, written, open := [], 0, true;
    }

    method WriteChunk(max: nat, chunk: Option<seq<byte>>, io: WriteIo) returns (err: Option<UploadError>)
      modifies this`data, this`written
      ensures (Value(), err) == AfterWrite(max, old(Value()), chunk, io)
    {
      if chunk.None? {
        return Some(Undecodable);
      }
      var b := chunk.value;
      if |b| > MAX_UPLOAD_CHUNK_BYTES {
        return Some(ChunkTooLarge);
      }
      if written > MAX_INT64 - |b| {
        return Some(SizeOverflow);
      }
      if max > 0 && (written > max || |b| > max - written) {
        return Some(ExceedsMaximum);
      }
      var n := |b|;
      err := None;
      if io.Short? {
        n := Min(io.kept, |b|);
        err := Some(WriteFailed);
      }
      data := data + b[..n];
      written := written + n;
    }

    /** Returns the result's size and error; `moved` says that the file now is the target. */
    method FinishUpload(io: FinishIo, targetExists: bool) returns (err: Option<UploadError>, size: int, moved: bool)
      modifies this`open
      ensures err == FinishError(Value(), io, targetExists)
      ensures size == written && !open
      ensures moved ==> !targetExists && (expected >= 0 ==> expected == written)
      ensures moved <==> err.None?
    {
      err := if io.synced then None else Some(SyncFailed);
      if err.None? && expected >= 0 && expected != written {
        err := Some(SizeMismatch);
      }
      if err.None? && !io.moded {
        err := Some(ChmodFailed);
      }
      open := false;
      if err.None? && !io.closed {
        err := Some(CloseFailed);
      }
      if err.None? && (targetExists || !io.renamed) {
        err := Some(RenameFailed);
      }
      return err, written, err.None?;
    }
  }
}
