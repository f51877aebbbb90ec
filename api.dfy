/** What the two upload handlers share: identifiers, the video metadata record, the
    server configuration, the HTTP response, and the log of side effects a request
    performs. */
module Api {
  import opened Wrappers

  predicate IsLowerHexDigit(c: char) {
    '0' <= c <= '9' || 'a' <= c <= 'f'
  }

  /** The canonical text of a UUID (`uuid.UUID.String()`): 8-4-4-4-12 lower-case hex
      digits separated by `-`. */
  predicate IsUuidText(s: string) {
    |s| == 36 &&
    forall k :: 0 <= k < 36 ==>
      if k == 8 || k == 13 || k == 18 || k == 23 then s[k] == '-' else IsLowerHexDigit(s[k])
  }

  type Uuid = s: string | IsUuidText(s) witness "00000000-0000-0000-0000-000000000000"

  /** `uuid.Nil`. */
  const NilUuid: Uuid := "00000000-0000-0000-0000-000000000000"

  /** A UUID's text has no `/` and no `.`. */
  lemma UuidCharacters(id: Uuid)
    ensures '/' !in id && '.' !in id && |id| == 36
  {
    forall k | 0 <= k < 36 ensures id[k] != '/' && id[k] != '.' {
    }
  }

  /** The video metadata record. `title` and `description` stand for the descriptive
      fields neither handler touches. */
  datatype Video = Video(
    id: Uuid,
    userID: Uuid,
    title: string,
    description: string,
    thumbnailURL: Option<string>,
    videoURL: Option<string>)

  /** Go's zero value of the record, which a failed lookup returns. */
  const ZeroVideo := Video(NilUuid, NilUuid, "", "", None, None)

  /** The parts of `apiConfig` the handlers read. The JWT secret only feeds token
      validation, whose verdict is an input here. */
  datatype Config = Config(bucket: string, region: string, assetsRoot: string, port: string)

  /** What the client gets: `respondWithJSON`, `respondWithError`, or nothing at all
      when the handler panics (Go's HTTP server recovers the panic and drops the
      connection). */
  datatype Response =
    | Json(status: int, body: Video)
    | Error(status: int, message: string)
    | Aborted

  /** Side effects, in the order a request performs them. */
  datatype Effect =
    | OpenUpload                      // `r.FormFile` returned the uploaded part
    | CloseUpload                     // deferred `Close` of that part
    | CreateTemp                      // `os.CreateTemp` succeeded
    | WriteTemp                       // `io.Copy` into the temp file
    | RewindTemp                      // `Seek(0, io.SeekStart)`
    | CloseTemp                       // deferred `tempFile.Close()`
    | RemoveTemp                      // deferred `os.Remove(tempFile.Name())`
    | RunProbe                        // ffprobe run on the temp file
    | PutObject(bucket: string, key: string, contentType: string, ok: bool)
    | UpdateVideo(record: Video, ok: bool)
    | CreateAsset(path: string)       // `os.Create` succeeded
    | WriteAsset(path: string)        // `io.Copy` into the asset file

  /** Appending no effects leaves a log as it is. */
  lemma Unchanged(done: seq<Effect>, pending: seq<Effect>)
    ensures done + [] == done && [] + pending == pending && done + [] + pending == done + pending
  {
  }

  /** Whether a resource that `acquire` takes and `release` gives back is held after
      the effects in `trace`: of the two, the later one in `trace` is `acquire`. */
  function Held(trace: seq<Effect>, acquire: Effect, release: Effect): bool
    decreases |trace|
  {
    if trace == [] then false
    else
      var last := trace[|trace| - 1];
      if last == acquire then true
      else if last == release then false
      else Held(trace[..|trace| - 1], acquire, release)
  }

  /** Whether the uploaded part is still open after the effects in `trace`. */
  function UploadOpen(trace: seq<Effect>): bool {
    Held(trace, OpenUpload, CloseUpload)
  }

  /** Whether the temp file is still open after the effects in `trace`. */
  function TempOpen(trace: seq<Effect>): bool {
    Held(trace, CreateTemp, CloseTemp)
  }

  /** Whether the temp file is on disk after the effects in `trace`. */
  function TempFileExists(trace: seq<Effect>): bool {
    Held(trace, CreateTemp, RemoveTemp)
  }

  /** `first` occurs in `trace` at some position before one where `second` occurs. */
  predicate Before(trace: seq<Effect>, first: Effect, second: Effect) {
    exists i, j :: 0 <= i < j < |trace| && trace[i] == first && trace[j] == second
  }

  /** A resource that is never taken is not held. */
  lemma {:induction false} NeverAcquired(trace: seq<Effect>, acquire: Effect, release: Effect)
    requires acquire !in trace
    ensures !Held(trace, acquire, release)
    decreases |trace|
  {
    if trace != [] {
      var init := trace[..|trace| - 1];
      assert forall e :: e in init ==> e in trace;
      NeverAcquired(init, acquire, release);
    }
  }

  /** Opening the part and closing it again leaves nothing open and no temp file. */
  lemma OnlyTheUpload(trace: seq<Effect>)
    requires trace == [OpenUpload, CloseUpload]
    ensures !UploadOpen(trace) && !TempOpen(trace) && !TempFileExists(trace)
  {
    NeverAcquired(trace, CreateTemp, CloseTemp);
    NeverAcquired(trace, CreateTemp, RemoveTemp);
  }

  /** Closing the temp file, removing it and closing the part, in this order, leave
      neither open, and the temp file not on disk, whatever came before. */
  lemma ClosedAtExit(middle: seq<Effect>, pending: seq<Effect>)
    requires pending == [CloseTemp, RemoveTemp] + [CloseUpload]
    ensures !UploadOpen(middle + pending)
    ensures !TempOpen(middle + pending)
    ensures !TempFileExists(middle + pending)
  {
    var trace := middle + pending;
    assert trace[|trace| - 1] == CloseUpload;
    var removed := trace[..|trace| - 1];
    assert removed == middle + [CloseTemp, RemoveTemp];
    var closed := removed[..|removed| - 1];
    assert closed == middle + [CloseTemp];
    assert !Held(closed, CreateTemp, CloseTemp);
    assert !Held(removed, CreateTemp, CloseTemp);
    assert !Held(removed, CreateTemp, RemoveTemp);
  }
}
