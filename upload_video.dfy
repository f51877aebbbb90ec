/** `handlerUploadVideo`: authenticate, authorize against the video's owner, stage the
    upload in a temp file, classify its aspect ratio, store it in the object store under
    a fresh key and record the object's URL on the video. */
module UploadVideo {
  import opened Wrappers
  import opened Strings
  import opened Base64Url
  import opened Api
  import opened AspectRatio
  import opened StorageKey

  /** The result of every call the handler makes into code this model does not contain. */
  datatype VideoRequest = VideoRequest(
    videoID: Option<Uuid>,       // uuid.Parse of the `videoID` path value
    token: Option<string>,       // auth.GetBearerToken
    user: Option<Uuid>,          // auth.ValidateJWT
    record: Option<Video>,       // cfg.db.GetVideo
    formOk: bool,                // r.FormFile("video"), which reads the body capped at 1 GiB
    mediaType: Option<string>,   // mime.ParseMediaType of the part's Content-Type
    tempCreated: bool,           // os.CreateTemp
    copied: bool,                // io.Copy of the buffered part into the temp file
    random: Option<RandomName>,  // rand.Read of 32 bytes
    probe: ProbeOutput,          // ffprobe's output, JSON-decoded
    putOk: bool,                 // s3Client.PutObject
    updateOk: bool)              // cfg.db.UpdateVideo

  /** The handler's checks, in the order it makes them. */
  datatype Step =
    | ParseVideoID | FindToken | ValidateToken | LookupVideo | CheckOwner
    | ReadForm | ParseMediaType | TakeExtension | CheckMp4
    | CreateTempFile | CopyUpload | GenerateName | ProbeRatio | Upload | UpdateRecord

  const StepCount: nat := 15

  /** The step the handler takes `k`-th (from 0). */
  function StepAt(k: nat): Step
    requires k < StepCount
  {
    match k
    case 0 => ParseVideoID
    case 1 => FindToken
    case 2 => ValidateToken
    case 3 => LookupVideo
    case 4 => CheckOwner
    case 5 => ReadForm
    case 6 => ParseMediaType
    case 7 => TakeExtension
    case 8 => CheckMp4
    case 9 => CreateTempFile
    case 10 => CopyUpload
    case 11 => GenerateName
    case 12 => ProbeRatio
    case 13 => Upload
    case _ => UpdateRecord
  }

  /** The position of a step in the handler's order. */
  function Rank(s: Step): (k: nat)
    ensures k < StepCount && StepAt(k) == s
  {
    match s
    case ParseVideoID => 0
    case FindToken => 1
    case ValidateToken => 2
    case LookupVideo => 3
    case CheckOwner => 4
    case ReadForm => 5
    case ParseMediaType => 6
    case TakeExtension => 7
    case CheckMp4 => 8
    case CreateTempFile => 9
    case CopyUpload => 10
    case GenerateName => 11
    case ProbeRatio => 12
    case Upload => 13
    case UpdateRecord => 14
  }

  /** Whether a step succeeds, given the outcomes of the calls before it. */
  predicate Passes(req: VideoRequest, s: Step) {
    match s
    case ParseVideoID => req.videoID.Some?
    case FindToken => req.token.Some?
    case ValidateToken => req.user.Some?
    case LookupVideo => req.record.Some?
    case CheckOwner => req.record.Some? && req.user.Some? && req.record.value.userID == req.user.value
    case ReadForm => req.formOk
    case ParseMediaType => req.mediaType.Some?
    // the split has a second field exactly when there is a '/' (StorageKey.ExtensionExists)
    case TakeExtension => req.mediaType.Some? && '/' in req.mediaType.value
    case CheckMp4 => req.mediaType == Some("video/mp4")
    case CreateTempFile => req.tempCreated
    case CopyUpload => req.copied
    case GenerateName => req.random.Some?
    case ProbeRatio => req.probe.Parsed?
    case Upload => req.putOk
    case UpdateRecord => req.updateOk
  }

  /** The response when a step fails: the status and message the handler sends, or an
      aborted connection where indexing the split media type panics. */
  function OnFailure(s: Step): Response {
    match s
    case ParseVideoID => Error(400, "Invalid ID")
    case FindToken => Error(401, "Couldn't find JWT")
    case ValidateToken => Error(401, "Couldn't validate JWT")
    case LookupVideo => Error(500, "Couldn't find video metadata")
    case CheckOwner => Error(401, "User not authorized")
    case ReadForm => Error(400, "Unable to parse video file")
    case ParseMediaType => Error(400, "Invalid ID")
    case TakeExtension => Aborted
    case CheckMp4 => Error(400, "Invalid file upload")
    case CreateTempFile => Error(500, "Couldn't create temp file")
    case CopyUpload => Error(500, "Couldn't write video data")
    case GenerateName => Error(500, "Couldn't generate random name")
    case ProbeRatio => Error(500, "Couldn't get aspect ratio")
    case Upload => Error(500, "Couldn't upload to S3")
    case UpdateRecord => Error(500, "Couldn't update video")
  }

  /** The first failing step at or after step `i` (`StepCount` when none fails). */
  function FailedFrom(req: VideoRequest, i: nat): (k: nat)
    requires i <= StepCount
    ensures i <= k <= StepCount
    decreases StepCount - i
  {
    if i == StepCount || !Passes(req, StepAt(i)) then i else FailedFrom(req, i + 1)
  }

  /** How many steps pass before the first failure (`StepCount` when none fails). */
  function Failed(req: VideoRequest): (k: nat)
    ensures k <= StepCount
  {
    FailedFrom(req, 0)
  }

  /** The steps from `i` up to `FailedFrom(req, i)` pass, and the one it names fails. */
  lemma {:induction false} FailedFromIsFirstFailure(req: VideoRequest, i: nat)
    requires i <= StepCount
    ensures forall j :: i <= j < FailedFrom(req, i) ==> Passes(req, StepAt(j))
    ensures FailedFrom(req, i) < StepCount ==> !Passes(req, StepAt(FailedFrom(req, i)))
    decreases StepCount - i
  {
    if i < StepCount && Passes(req, StepAt(i)) {
      FailedFromIsFirstFailure(req, i + 1);
    }
  }

  /** `Failed` counts exactly the steps before the first failing one. */
  lemma FailedIsFirstFailure(req: VideoRequest)
    ensures forall j :: 0 <= j < Failed(req) ==> Passes(req, StepAt(j))
    ensures Failed(req) < StepCount ==> !Passes(req, StepAt(Failed(req)))
  {
    FailedFromIsFirstFailure(req, 0);
  }

  /** Every step before step `k` passes. */
  predicate PassedBefore(req: VideoRequest, k: nat)
    requires k <= StepCount
  {
    k == 0 || (PassedBefore(req, k - 1) && Passes(req, StepAt(k - 1)))
  }

  /** Once the steps before `k` pass, the first failure is the first one from `k` on. */
  lemma {:induction false} PassedBeforeFailed(req: VideoRequest, k: nat)
    requires k <= StepCount && PassedBefore(req, k)
    ensures Failed(req) == FailedFrom(req, k)
  {
    if k > 0 {
      PassedBeforeFailed(req, k - 1);
    }
  }

  /** The key the video is stored under, once its parts are known. */
  function PlannedKey(req: VideoRequest): (key: Option<string>)
    ensures key.Some? <==>
      req.mediaType.Some? && '/' in req.mediaType.value && req.random.Some? && req.probe.Parsed?
  {
    if req.mediaType.Some? && Extension(req.mediaType.value).Some? && req.random.Some? && req.probe.Parsed? then
      Some(VideoKey(RatioOf(req.probe).value, req.random.value, Extension(req.mediaType.value).value))
    else None
  }

  /** The record written back: the stored one with `VideoURL` set to the object's URL. */
  function PublishedRecord(cfg: Config, req: VideoRequest): (rec: Option<Video>)
    ensures rec.Some? <==> req.record.Some? && PlannedKey(req).Some?
  {
    if req.record.Some? && PlannedKey(req).Some? then
      Some(req.record.value.(videoURL := Some(S3Url(cfg.bucket, cfg.region, PlannedKey(req).value))))
    else None
  }

  /** What the upload and the update write, fixed by the request before the handler
      runs: the object key and the record written back (`None` where the request does
      not let the handler get that far). The step table is stated for any plan, and the
      handler follows the one the request fixes. */
  datatype Plan = Plan(key: Option<string>, record: Option<Video>)

  /** The plan a request fixes. */
  function PlanOf(cfg: Config, req: VideoRequest): Plan {
    Plan(PlannedKey(req), PublishedRecord(cfg, req))
  }

  /** The response the step table prescribes: the first failing step's response, or the
      published record with status 200 when every step passes. */
  function VideoResponse(cfg: Config, req: VideoRequest): Response {
    var k := Failed(req);
    if k < StepCount then OnFailure(StepAt(k))
    else
      SuccessPublishes(cfg, req);
      Json(200, PublishedRecord(cfg, req).value)
  }

  /** When every step passes there is a record to publish. */
  lemma SuccessPublishes(cfg: Config, req: VideoRequest)
    requires Failed(req) == StepCount
    ensures PublishedRecord(cfg, req).Some?
  {
    FailedIsFirstFailure(req);
    assert Passes(req, StepAt(Rank(LookupVideo))) && Passes(req, StepAt(Rank(TakeExtension)));
    assert Passes(req, StepAt(Rank(GenerateName))) && Passes(req, StepAt(Rank(ProbeRatio)));
  }

  /** The effects of attempting a step, given whether it passes. The rewind of the temp
      file, whose error the handler ignores, comes first in the attempt to name the video. */
  function StepEffects(cfg: Config, req: VideoRequest, plan: Plan, s: Step, ok: bool): seq<Effect> {
    match s
    case ReadForm => if ok then [OpenUpload] else []
    case CreateTempFile => if ok then [CreateTemp] else []
    case CopyUpload => [WriteTemp]
    case GenerateName => [RewindTemp]
    case ProbeRatio => [RunProbe]
    case Upload =>
      (match (plan.key, req.mediaType)
       case (Some(key), Some(mediaType)) => [PutObject(cfg.bucket, key, mediaType, req.putOk)]
       case _ => [])
    case UpdateRecord =>
      (match plan.record
       case Some(rec) => [UpdateVideo(rec, req.updateOk)]
       case None => [])
    case _ => []
  }

  /** The calls a step defers when it passes, in the order they run at exit (Go runs
      deferred calls last-in first-out). */
  function Deferred(s: Step): seq<Effect> {
    match s
    case ReadForm => [CloseUpload]
    case CreateTempFile => [CloseTemp, RemoveTemp]
    case _ => []
  }

  /** The handler from step `k` on, with `done` the effects performed so far and `pending`
      Go's defer stack (most recent first): a passing step adds its effects to `done` and
      pushes its deferred calls; a failing step's attempt ends the handler, and the whole
      stack runs on the way out, as it does when the table is done. */
  function Run(cfg: Config, req: VideoRequest, plan: Plan, k: nat, done: seq<Effect>, pending: seq<Effect>): seq<Effect>
    requires k <= StepCount
    decreases StepCount - k
  {
    if k == StepCount then done + pending
    else if Passes(req, StepAt(k)) then
      Run(cfg, req, plan, k + 1, done + StepEffects(cfg, req, plan, StepAt(k), true), Deferred(StepAt(k)) + pending)
    else done + StepEffects(cfg, req, plan, StepAt(k), false) + pending
  }

  /** The effects the step table prescribes for a request under a plan. */
  function Trace(cfg: Config, req: VideoRequest, plan: Plan): seq<Effect> {
    Run(cfg, req, plan, 0, [], [])
  }

  /** The effects of the handler: the step table under the plan the request fixes. */
  function VideoTrace(cfg: Config, req: VideoRequest): seq<Effect> {
    Trace(cfg, req, PlanOf(cfg, req))
  }

  /** Attempting step `s` once the steps before it have passed: when `s` passes, the
      handler moves on with its effects done and its deferred calls pushed; when it fails,
      the handler answers as the table says for `s`. */
  lemma Attempt(cfg: Config, req: VideoRequest, plan: Plan, s: Step, done: seq<Effect>, pending: seq<Effect>)
    requires PassedBefore(req, Rank(s))
    ensures Passes(req, s) ==>
      PassedBefore(req, Rank(s) + 1) &&
      Run(cfg, req, plan, Rank(s), done, pending) ==
        Run(cfg, req, plan, Rank(s) + 1, done + StepEffects(cfg, req, plan, s, true), Deferred(s) + pending)
    ensures !Passes(req, s) ==>
      VideoResponse(cfg, req) == OnFailure(s) &&
      Run(cfg, req, plan, Rank(s), done, pending) == done + StepEffects(cfg, req, plan, s, false) + pending
    // a step without effects or deferred calls leaves the two lists as they are
    ensures StepEffects(cfg, req, plan, s, true) == [] ==> done + StepEffects(cfg, req, plan, s, true) == done
    ensures StepEffects(cfg, req, plan, s, false) == [] ==> done + StepEffects(cfg, req, plan, s, false) + pending == done + pending
    ensures Deferred(s) == [] ==> Deferred(s) + pending == pending
  {
    Unchanged(done, pending);
    if !Passes(req, s) {
      PassedBeforeFailed(req, Rank(s));
    }
  }

  /** Every step passes: the handler publishes the record. */
  lemma AllPass(cfg: Config, req: VideoRequest)
    requires PassedBefore(req, StepCount)
    ensures PublishedRecord(cfg, req).Some? && VideoResponse(cfg, req) == Json(200, PublishedRecord(cfg, req).value)
  {
    PassedBeforeFailed(req, StepCount);
    SuccessPublishes(cfg, req);
  }

  /** Lines 25-60 of the handler: the video ID, the bearer token, its validation, the
      metadata lookup and the ownership check. None of them has a side effect. */
  method Authorize(cfg: Config, req: VideoRequest, ghost plan: Plan) returns (failure: Option<Response>, metadata: Video)
    ensures failure.Some? ==> failure.value == VideoResponse(cfg, req) && Trace(cfg, req, plan) == []
    ensures failure.None? ==>
      PassedBefore(req, Rank(ReadForm)) && req.record == Some(metadata) &&
      Trace(cfg, req, plan) == Run(cfg, req, plan, Rank(ReadForm), [], [])
  {
    metadata := ZeroVideo;
    Attempt(cfg, req, plan, ParseVideoID, [], []);
    if req.videoID.None? {
      return Some(Error(400, "Invalid ID")), metadata;
    }
    Attempt(cfg, req, plan, FindToken, [], []);
    if req.token.None? {
      return Some(Error(401, "Couldn't find JWT")), metadata;
    }
    Attempt(cfg, req, plan, ValidateToken, [], []);
    if req.user.None? {
      return Some(Error(401, "Couldn't validate JWT")), metadata;
    }
    var userID := req.user.value;
    Attempt(cfg, req, plan, LookupVideo, [], []);
    if req.record.None? {
      return Some(Error(500, "Couldn't find video metadata")), metadata;
    }
    metadata := req.record.value;
    Attempt(cfg, req, plan, CheckOwner, [], []);
    if metadata.userID != userID {
      return Some(Error(401, "User not authorized")), metadata;
    }
    failure := None;
  }

  /** Lines 62-67 of the handler: the form file, whose close is deferred. `trace` and
      `deferred` carry on from `trace0` and `deferred0`; `deferred` is Go's defer stack,
      most recent first. */
  method ReadUpload(cfg: Config, req: VideoRequest, ghost plan: Plan, trace0: seq<Effect>, deferred0: seq<Effect>)
    returns (failure: Option<Response>, trace: seq<Effect>, deferred: seq<Effect>)
    requires PassedBefore(req, Rank(ReadForm))
    requires Trace(cfg, req, plan) == Run(cfg, req, plan, Rank(ReadForm), trace0, deferred0)
    ensures failure.Some? ==> failure.value == VideoResponse(cfg, req) && Trace(cfg, req, plan) == trace + deferred
    ensures failure.None? ==>
      PassedBefore(req, Rank(ParseMediaType)) &&
      Trace(cfg, req, plan) == Run(cfg, req, plan, Rank(ParseMediaType), trace, deferred)
  {
    trace, deferred := trace0, deferred0;
    Attempt(cfg, req, plan, ReadForm, trace, deferred);
    if !req.formOk {
      return Some(Error(400, "Unable to parse video file")), trace, deferred;
    }
    trace := trace + [OpenUpload];
    deferred := [CloseUpload] + deferred;
    failure := None;
  }

  /** Lines 69-84 of the handler: the media type, the extension and the mp4 check; none
      of them has a side effect. */
  method CheckMediaType(cfg: Config, req: VideoRequest, ghost plan: Plan, trace: seq<Effect>, deferred: seq<Effect>)
    returns (failure: Option<Response>, mediaType: string, extension: string)
    requires PassedBefore(req, Rank(ParseMediaType))
    requires Trace(cfg, req, plan) == Run(cfg, req, plan, Rank(ParseMediaType), trace, deferred)
    ensures failure.Some? ==> failure.value == VideoResponse(cfg, req) && Trace(cfg, req, plan) == trace + deferred
    ensures failure.None? ==>
      PassedBefore(req, Rank(CreateTempFile)) &&
      Trace(cfg, req, plan) == Run(cfg, req, plan, Rank(CreateTempFile), trace, deferred) &&
      req.mediaType == Some(mediaType) && Extension(mediaType) == Some(extension)
  {
    mediaType, extension := "", "";
    Attempt(cfg, req, plan, ParseMediaType, trace, deferred);
    if req.mediaType.None? {
      return Some(Error(400, "Invalid ID")), mediaType, extension;
    }
    mediaType := req.mediaType.value;
    Attempt(cfg, req, plan, TakeExtension, trace, deferred);
    ExtensionExists(mediaType);
    var ext := Extension(mediaType);
    if ext.None? {
      // index out of range: the handler panics
      return Some(Aborted), mediaType, extension;
    }
    extension := ext.value;
    Attempt(cfg, req, plan, CheckMp4, trace, deferred);
    if mediaType != "video/mp4" {
      return Some(Error(400, "Invalid file upload")), mediaType, extension;
    }
    failure := None;
  }

  /** Lines 86-100 of the handler: the temp file and the copy of the upload into it. */
  method StageUpload(cfg: Config, req: VideoRequest, ghost plan: Plan, trace0: seq<Effect>, deferred0: seq<Effect>)
    returns (failure: Option<Response>, trace: seq<Effect>, deferred: seq<Effect>)
    requires PassedBefore(req, Rank(CreateTempFile))
    requires Trace(cfg, req, plan) == Run(cfg, req, plan, Rank(CreateTempFile), trace0, deferred0)
    ensures failure.Some? ==> failure.value == VideoResponse(cfg, req) && Trace(cfg, req, plan) == trace + deferred
    ensures failure.None? ==>
      PassedBefore(req, Rank(GenerateName)) &&
      Trace(cfg, req, plan) == Run(cfg, req, plan, Rank(GenerateName), trace, deferred)
  {
    trace, deferred := trace0, deferred0;
    Attempt(cfg, req, plan, CreateTempFile, trace, deferred);
    if !req.tempCreated {
      return Some(Error(500, "Couldn't create temp file")), trace, deferred;
    }
    trace := trace + [CreateTemp];
    // defer os.Remove, then defer Close: the close runs first
    deferred := [CloseTemp, RemoveTemp] + deferred;
    Attempt(cfg, req, plan, CopyUpload, trace, deferred);
    trace := trace + [WriteTemp];
    if !req.copied {
      return Some(Error(500, "Couldn't write video data")), trace, deferred;
    }
    failure := None;
  }

  /** Lines 103-111 of the handler: the rewind of the temp file and the random name. */
  method NameObject(cfg: Config, req: VideoRequest, ghost plan: Plan, trace0: seq<Effect>, deferred: seq<Effect>)
    returns (failure: Option<Response>, trace: seq<Effect>, random: RandomName)
    requires PassedBefore(req, Rank(GenerateName))
    requires Trace(cfg, req, plan) == Run(cfg, req, plan, Rank(GenerateName), trace0, deferred)
    ensures failure.Some? ==> failure.value == VideoResponse(cfg, req) && Trace(cfg, req, plan) == trace + deferred
    ensures failure.None? ==>
      PassedBefore(req, Rank(ProbeRatio)) && req.random == Some(random) &&
      Trace(cfg, req, plan) == Run(cfg, req, plan, Rank(ProbeRatio), trace, deferred)
  {
    trace, random := trace0, seq(32, _ => 0 as byte);
    Attempt(cfg, req, plan, GenerateName, trace, deferred);
    trace := trace + [RewindTemp];
    if req.random.None? {
      return Some(Error(500, "Couldn't generate random name")), trace, random;
    }
    random := req.random.value;
    failure := None;
  }

  /** Lines 113-131 of the handler: the aspect ratio and the object key built from its
      directory, the random name and the extension. */
  method KeyObject(cfg: Config, req: VideoRequest, ghost plan: Plan, random: RandomName, extension: string,
                   trace0: seq<Effect>, deferred: seq<Effect>)
    returns (failure: Option<Response>, trace: seq<Effect>, key: string)
    requires PassedBefore(req, Rank(ProbeRatio))
    requires Trace(cfg, req, plan) == Run(cfg, req, plan, Rank(ProbeRatio), trace0, deferred)
    requires req.mediaType.Some? && Extension(req.mediaType.value) == Some(extension)
    requires req.random == Some(random)
    ensures failure.Some? ==> failure.value == VideoResponse(cfg, req) && Trace(cfg, req, plan) == trace + deferred
    ensures failure.None? ==>
      PassedBefore(req, Rank(Upload)) && PlannedKey(req) == Some(key) &&
      Trace(cfg, req, plan) == Run(cfg, req, plan, Rank(Upload), trace, deferred)
  {
    trace, key := trace0, "";
    Attempt(cfg, req, plan, ProbeRatio, trace, deferred);
    trace := trace + [RunProbe];
    var ratio := GetVideoAspectRatio(req.probe);
    if ratio.None? {
      return Some(Error(500, "Couldn't get aspect ratio")), trace, key;
    }
    // the switch on the ratio and the key built from its directory
    key := VideoKey(ratio.value, random, extension);
    failure := None;
  }

  /** Lines 133-155 of the handler: the upload, the record update and the response; the
      deferred calls run on the way out. */
  method Store(cfg: Config, req: VideoRequest, ghost plan: Plan, metadata: Video, mediaType: string, key: string,
               trace0: seq<Effect>, deferred: seq<Effect>)
    returns (resp: Response, trace: seq<Effect>)
    requires PassedBefore(req, Rank(Upload))
    requires Trace(cfg, req, plan) == Run(cfg, req, plan, Rank(Upload), trace0, deferred)
    requires req.mediaType == Some(mediaType) && plan.key == Some(key)
    requires plan.record == PublishedRecord(cfg, req)
    requires plan.record == Some(metadata.(videoURL := Some(S3Url(cfg.bucket, cfg.region, key))))
    ensures resp == VideoResponse(cfg, req)
    ensures trace == Trace(cfg, req, plan)
  {
    trace := trace0;
    Attempt(cfg, req, plan, Upload, trace, deferred);
    trace := trace + [PutObject(cfg.bucket, key, mediaType, req.putOk)];
    if !req.putOk {
      return Error(500, "Couldn't upload to S3"), trace + deferred;
    }
    var published := metadata.(videoURL := Some(S3Url(cfg.bucket, cfg.region, key)));
    Attempt(cfg, req, plan, UpdateRecord, trace, deferred);
    trace := trace + [UpdateVideo(published, req.updateOk)];
    if !req.updateOk {
      return Error(500, "Couldn't update video"), trace + deferred;
    }
    AllPass(cfg, req);
    resp := Json(200, published);
    trace := trace + deferred;
  }

  /** `handlerUploadVideo`, in seven parts: each early `return` of the source returns
      from the part it falls in, and the deferred calls registered so far run then. */
  method HandleUploadVideo(cfg: Config, req: VideoRequest) returns (resp: Response, trace: seq<Effect>)
    ensures resp == VideoResponse(cfg, req)
    ensures trace == VideoTrace(cfg, req)
  {
    ghost var plan := PlanOf(cfg, req);
    var failure, metadata := Authorize(cfg, req, plan);
    if failure.Some? {
      return failure.value, [];
    }
    var deferred;
    failure, trace, deferred := ReadUpload(cfg, req, plan, [], []);
    if failure.Some? {
      return failure.value, trace + deferred;
    }
    var mediaType, extension;
    failure, mediaType, extension := CheckMediaType(cfg, req, plan, trace, deferred);
    if failure.Some? {
      return failure.value, trace + deferred;
    }
    failure, trace, deferred := StageUpload(cfg, req, plan, trace, deferred);
    if failure.Some? {
      return failure.value, trace + deferred;
    }
    var random;
    failure, trace, random := NameObject(cfg, req, plan, trace, deferred);
    if failure.Some? {
      return failure.value, trace + deferred;
    }
    var key;
    failure, trace, key := KeyObject(cfg, req, plan, random, extension, trace, deferred);
    if failure.Some? {
      return failure.value, trace + deferred;
    }
    resp, trace := Store(cfg, req, plan, metadata, mediaType, key, trace, deferred);
  }
}
