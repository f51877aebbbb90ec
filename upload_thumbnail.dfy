/** `handlerUploadThumbnail`: authenticate, read the form file, authorize against the
    video's owner, write the thumbnail into the assets directory and record its URL on
    the video. */
module UploadThumbnail {
  import opened Wrappers
  import opened FilePath
  import opened Api
  import opened StorageKey

  /** The result of every call the handler makes into code this model does not contain. */
  datatype ThumbnailRequest = ThumbnailRequest(
    videoID: Option<Uuid>,       // uuid.Parse of the `videoID` path value
    token: Option<string>,       // auth.GetBearerToken
    user: Option<Uuid>,          // auth.ValidateJWT
    formOk: bool,                // r.FormFile("thumbnail")
    contentType: string,         // the part's raw Content-Type header
    record: Option<Video>,       // cfg.db.GetVideo
    created: bool,               // os.Create of the asset file
    copied: bool,                // io.Copy into the asset file
    updateOk: bool)              // cfg.db.UpdateVideo

  /** The handler's checks, in the order it makes them. */
  datatype Step =
    | ParseVideoID | FindToken | ValidateToken | ReadForm | LookupVideo | CheckOwner
    | TakeExtension | CreateAssetFile | CopyUpload | UpdateRecord

  const StepCount: nat := 10

  /** The step the handler takes `k`-th (from 0). */
  function StepAt(k: nat): Step
    requires k < StepCount
  {
    match k
    case 0 => ParseVideoID
    case 1 => FindToken
    case 2 => ValidateToken
    case 3 => ReadForm
    case 4 => LookupVideo
    case 5 => CheckOwner
    case 6 => TakeExtension
    case 7 => CreateAssetFile
    case 8 => CopyUpload
    case _ => UpdateRecord
  }

  /** The position of a step in the handler's order. */
  function Rank(s: Step): (k: nat)
    ensures k < StepCount && StepAt(k) == s
  {
    match s
    case ParseVideoID => 0
    case FindToken => 1
    case ValidateToken => 2
    case ReadForm => 3
    case LookupVideo => 4
    case CheckOwner => 5
    case TakeExtension => 6
    case CreateAssetFile => 7
    case CopyUpload => 8
    case UpdateRecord => 9
  }

  /** Whether a step succeeds, given the outcomes of the calls before it. */
  predicate Passes(req: ThumbnailRequest, s: Step) {
    match s
    case ParseVideoID => req.videoID.Some?
    case FindToken => req.token.Some?
    case ValidateToken => req.user.Some?
    case ReadForm => req.formOk
    case LookupVideo => req.record.Some?
    case CheckOwner => req.record.Some? && req.user.Some? && req.user.value == req.record.value.userID
    // the split has a second field exactly when there is a '/' (StorageKey.ExtensionExists)
    case TakeExtension => '/' in req.contentType
    case CreateAssetFile => req.created
    case CopyUpload => req.copied
    case UpdateRecord => req.updateOk
  }

  /** The response when a step fails: the status and message the handler sends, or an
      aborted connection where indexing the split content type panics. */
  function OnFailure(s: Step): Response {
    match s
    case ParseVideoID => Error(400, "Invalid ID")
    case FindToken => Error(401, "Couldn't find JWT")
    case ValidateToken => Error(401, "Couldn't validate JWT")
    case ReadForm => Error(400, "Unable to parse form file")
    case LookupVideo => Error(500, "Unabel to fetch video metadata")
    case CheckOwner => Error(401, "Not allowed")
    case TakeExtension => Aborted
    case CreateAssetFile => Error(500, "Couldn't create file")
    case CopyUpload => Error(500, "Couldn't write data")
    case UpdateRecord => Error(400, "Unable to update video")
  }

  /** The first failing step at or after step `i` (`StepCount` when none fails). */
  function FailedFrom(req: ThumbnailRequest, i: nat): (k: nat)
    requires i <= StepCount
    ensures i <= k <= StepCount
    decreases StepCount - i
  {
    if i == StepCount || !Passes(req, StepAt(i)) then i else FailedFrom(req, i + 1)
  }

  /** How many steps pass before the first failure (`StepCount` when none fails). */
  function Failed(req: ThumbnailRequest): (k: nat)
    ensures k <= StepCount
  {
    FailedFrom(req, 0)
  }

  /** The steps from `i` up to `FailedFrom(req, i)` pass, and the one it names fails. */
  lemma {:induction false} FailedFromIsFirstFailure(req: ThumbnailRequest, i: nat)
    requires i <= StepCount
    ensures forall j :: i <= j < FailedFrom(req, i) ==> Passes(req, StepAt(j))
    ensures FailedFrom(req, i) < StepCount ==> !Passes(req, StepAt(FailedFrom(req, i)))
    decreases StepCount - i
  {
    if i < StepCount && Passes(req, StepAt(i)) {
      FailedFromIsFirstFailure(req, i + 1);
    }
  }

  /** `Failed` counts exactly the steps before the first failing one. */
  lemma FailedIsFirstFailure(req: ThumbnailRequest)
    ensures forall j :: 0 <= j < Failed(req) ==> Passes(req, StepAt(j))
    ensures Failed(req) < StepCount ==> !Passes(req, StepAt(Failed(req)))
  {
    FailedFromIsFirstFailure(req, 0);
  }

  /** Every step before step `k` passes. */
  predicate PassedBefore(req: ThumbnailRequest, k: nat)
    requires k <= StepCount
  {
    k == 0 || (PassedBefore(req, k - 1) && Passes(req, StepAt(k - 1)))
  }

  /** Once the steps before `k` pass, the first failure is the first one from `k` on. */
  lemma {:induction false} PassedBeforeFailed(req: ThumbnailRequest, k: nat)
    requires k <= StepCount && PassedBefore(req, k)
    ensures Failed(req) == FailedFrom(req, k)
  {
    if k > 0 {
      PassedBeforeFailed(req, k - 1);
    }
  }

  /** Where the thumbnail is written, once the video ID and the extension are known. */
  function PlannedPath(cfg: Config, req: ThumbnailRequest): (path: Option<string>)
    ensures path.Some? <==> req.videoID.Some? && Extension(req.contentType).Some?
  {
    if req.videoID.Some? && Extension(req.contentType).Some? then
      Some(AssetPath(cfg.assetsRoot, req.videoID.value, Extension(req.contentType).value))
    else None
  }

  /** The record written back: the stored one with `ThumbnailURL` set to the URL the
      thumbnail is served at. */
  function PublishedRecord(cfg: Config, req: ThumbnailRequest): (rec: Option<Video>)
    ensures rec.Some? <==> req.record.Some? && req.videoID.Some? && Extension(req.contentType).Some?
  {
    if req.record.Some? && req.videoID.Some? && Extension(req.contentType).Some? then
      var url := ThumbnailUrl(cfg.port, req.videoID.value, Extension(req.contentType).value);
      Some(req.record.value.(thumbnailURL := Some(url)))
    else None
  }

  /** What the asset steps and the update write, fixed by the request before the handler
      runs: the asset path and the record written back (`None` where the request does
      not let the handler get that far). The step table is stated for any plan, and the
      handler follows the one the request fixes. */
  datatype Plan = Plan(path: Option<string>, record: Option<Video>)

  /** The plan a request fixes. */
  function PlanOf(cfg: Config, req: ThumbnailRequest): Plan {
    Plan(PlannedPath(cfg, req), PublishedRecord(cfg, req))
  }

  /** The response the step table prescribes: the first failing step's response, or the
      published record with status 200 when every step passes. */
  function ThumbnailResponse(cfg: Config, req: ThumbnailRequest): Response {
    var k := Failed(req);
    if k < StepCount then OnFailure(StepAt(k))
    else
      SuccessPublishes(cfg, req);
      Json(200, PublishedRecord(cfg, req).value)
  }

  /** When every step passes there is a record to publish. */
  lemma SuccessPublishes(cfg: Config, req: ThumbnailRequest)
    requires Failed(req) == StepCount
    ensures PublishedRecord(cfg, req).Some?
  {
    FailedIsFirstFailure(req);
    assert Passes(req, StepAt(Rank(ParseVideoID))) && Passes(req, StepAt(Rank(LookupVideo)));
    assert Passes(req, StepAt(Rank(TakeExtension)));
  }

  /** The effects of attempting a step, given whether it passes. The asset file is never
      closed: the handler has no `Close` for it. */
  function StepEffects(cfg: Config, req: ThumbnailRequest, plan: Plan, s: Step, ok: bool): seq<Effect> {
    match s
    case ReadForm => if ok then [OpenUpload] else []
    case CreateAssetFile =>
      (match plan.path
       case Some(path) => if ok then [CreateAsset(path)] else []
       case None => [])
    case CopyUpload =>
      (match plan.path
       case Some(path) => [WriteAsset(path)]
       case None => [])
    case UpdateRecord =>
      (match plan.record
       case Some(rec) => [UpdateVideo(rec, req.updateOk)]
       case None => [])
    case _ => []
  }

  /** The calls a step defers when it passes. */
  function Deferred(s: Step): seq<Effect> {
    match s
    case ReadForm => [CloseUpload]
    case _ => []
  }

  /** The handler from step `k` on, with `done` the effects performed so far and `pending`
      Go's defer stack (most recent first): a passing step adds its effects to `done` and
      pushes its deferred calls; a failing step's attempt ends the handler, and the whole
      stack runs on the way out, as it does when the table is done. */
  function Run(cfg: Config, req: ThumbnailRequest, plan: Plan, k: nat, done: seq<Effect>, pending: seq<Effect>): seq<Effect>
    requires k <= StepCount
    decreases StepCount - k
  {
    if k == StepCount then done + pending
    else if Passes(req, StepAt(k)) then
      Run(cfg, req, plan, k + 1, done + StepEffects(cfg, req, plan, StepAt(k), true), Deferred(StepAt(k)) + pending)
    else done + StepEffects(cfg, req, plan, StepAt(k), false) + pending
  }

  /** The effects the step table prescribes for a request under a plan. */
  function Trace(cfg: Config, req: ThumbnailRequest, plan: Plan): seq<Effect> {
    Run(cfg, req, plan, 0, [], [])
  }

  /** The effects of the handler: the step table under the plan the request fixes. */
  function ThumbnailTrace(cfg: Config, req: ThumbnailRequest): seq<Effect> {
    Trace(cfg, req, PlanOf(cfg, req))
  }

  /** Attempting step `s` once the steps before it have passed: when `s` passes, the
      handler moves on with its effects done and its deferred calls pushed; when it fails,
      the handler answers as the table says for `s`. */
  lemma Attempt(cfg: Config, req: ThumbnailRequest, plan: Plan, s: Step, done: seq<Effect>, pending: seq<Effect>)
    requires PassedBefore(req, Rank(s))
    ensures Passes(req, s) ==>
      PassedBefore(req, Rank(s) + 1) &&
      Run(cfg, req, plan, Rank(s), done, pending) ==
        Run(cfg, req, plan, Rank(s) + 1, done + StepEffects(cfg, req, plan, s, true), Deferred(s) + pending)
    ensures !Passes(req, s) ==>
      ThumbnailResponse(cfg, req) == OnFailure(s) &&
      Run(cfg, req, plan, Rank(s), done, pending) == done + StepEffects(cfg, req, plan, s, false) + pending
    // a step without effects or deferred calls leaves the two lists as they are
    ensures StepEffects(cfg, req, plan, s, true) == [] ==> done + StepEffects(cfg, req, plan, s, true) == done
    ensures StepEffects(cfg, req, plan, s, false) == [] ==> done + StepEffects(cfg, req, plan, s, false) + pending == done + pending
    ensures Deferred(s) == [] ==> Deferred(s) + pending == pending
  {
    Unchanged(done, pending);
    if !Passes(req, s) {
      PassedBeforeFailed(req, Rank(s));
    }
  }

  /** Every step passes: the handler publishes the record. */
  lemma AllPass(cfg: Config, req: ThumbnailRequest)
    requires PassedBefore(req, StepCount)
    ensures PublishedRecord(cfg, req).Some? && ThumbnailResponse(cfg, req) == Json(200, PublishedRecord(cfg, req).value)
  {
    PassedBeforeFailed(req, StepCount);
    SuccessPublishes(cfg, req);
  }

  /** Lines 16-59 of the handler: the video ID, the bearer token, its validation, the form
      file, the metadata lookup and the ownership check. The error of
      `ParseMultipartForm` is ignored; `FormFile` reports it again. */
  method Authorize(cfg: Config, req: ThumbnailRequest, ghost plan: Plan)
    returns (failure: Option<Response>, videoID: Uuid, metadata: Video, trace: seq<Effect>, deferred: seq<Effect>)
    ensures failure.Some? ==> failure.value == ThumbnailResponse(cfg, req) && Trace(cfg, req, plan) == trace + deferred
    ensures failure.None? ==>
      PassedBefore(req, Rank(TakeExtension)) &&
      Trace(cfg, req, plan) == Run(cfg, req, plan, Rank(TakeExtension), trace, deferred) &&
      req.videoID == Some(videoID) && req.record == Some(metadata)
  {
    videoID, metadata, trace, deferred := NilUuid, ZeroVideo, [], [];
    Attempt(cfg, req, plan, ParseVideoID, trace, deferred);
    if req.videoID.None? {
      return Some(Error(400, "Invalid ID")), videoID, metadata, trace, deferred;
    }
    videoID := req.videoID.value;
    Attempt(cfg, req, plan, FindToken, trace, deferred);
    if req.token.None? {
      return Some(Error(401, "Couldn't find JWT")), videoID, metadata, trace, deferred;
    }
    Attempt(cfg, req, plan, ValidateToken, trace, deferred);
    if req.user.None? {
      return Some(Error(401, "Couldn't validate JWT")), videoID, metadata, trace, deferred;
    }
    var userID := req.user.value;
    Attempt(cfg, req, plan, ReadForm, trace, deferred);
    if !req.formOk {
      return Some(Error(400, "Unable to parse form file")), videoID, metadata, trace, deferred;
    }
    trace := trace + [OpenUpload];
    deferred := [CloseUpload] + deferred;
    Attempt(cfg, req, plan, LookupVideo, trace, deferred);
    if req.record.None? {
      return Some(Error(500, "Unabel to fetch video metadata")), videoID, metadata, trace, deferred;
    }
    metadata := req.record.value;
    Attempt(cfg, req, plan, CheckOwner, trace, deferred);
    if userID != metadata.userID {
      return Some(Error(401, "Not allowed")), videoID, metadata, trace, deferred;
    }
    failure := None;
  }

  /** Lines 61-84 of the handler: the asset path and extension, the asset file, the copy
      into it and the record update; the deferred close of the part runs on the way out. */
  method Store(cfg: Config, req: ThumbnailRequest, videoID: Uuid, metadata: Video,
               trace0: seq<Effect>, deferred: seq<Effect>)
    returns (resp: Response, trace: seq<Effect>)
    requires PassedBefore(req, Rank(TakeExtension))
    requires ThumbnailTrace(cfg, req) == Run(cfg, req, PlanOf(cfg, req), Rank(TakeExtension), trace0, deferred)
    requires req.videoID == Some(videoID) && req.record == Some(metadata)
    ensures resp == ThumbnailResponse(cfg, req)
    ensures trace == ThumbnailTrace(cfg, req)
  {
    trace := trace0;
    var filePath := JoinPath(cfg.assetsRoot, videoID);
    Attempt(cfg, req, PlanOf(cfg, req), TakeExtension, trace, deferred);
    ExtensionExists(req.contentType);
    var ext := Extension(req.contentType);
    if ext.None? {
      // index out of range: the handler panics
      return Aborted, trace + deferred;
    }
    var extension := ext.value;
    var path := filePath + "." + extension;
    assert PlanOf(cfg, req).path == Some(path);
    Attempt(cfg, req, PlanOf(cfg, req), CreateAssetFile, trace, deferred);
    if !req.created {
      return Error(500, "Couldn't create file"), trace + deferred;
    }
    trace := trace + [CreateAsset(path)];
    Attempt(cfg, req, PlanOf(cfg, req), CopyUpload, trace, deferred);
    trace := trace + [WriteAsset(path)];
    if !req.copied {
      return Error(500, "Couldn't write data"), trace + deferred;
    }
    var published := metadata.(thumbnailURL := Some(ThumbnailUrl(cfg.port, videoID, extension)));
    assert PlanOf(cfg, req).record == Some(published);
    Attempt(cfg, req, PlanOf(cfg, req), UpdateRecord, trace, deferred);
    trace := trace + [UpdateVideo(published, req.updateOk)];
    if !req.updateOk {
      return Error(400, "Unable to update video"), trace + deferred;
    }
    AllPass(cfg, req);
    resp := Json(200, published);
    trace := trace + deferred;
  }

  /** `handlerUploadThumbnail`, in two parts: each early `return` of the source returns
      from the part it falls in, and the deferred close runs then. */
  method HandleUploadThumbnail(cfg: Config, req: ThumbnailRequest) returns (resp: Response, trace: seq<Effect>)
    ensures resp == ThumbnailResponse(cfg, req)
    ensures trace == ThumbnailTrace(cfg, req)
  {
    var failure, videoID, metadata, deferred;
    ghost var plan := PlanOf(cfg, req);
    failure, videoID, metadata, trace, deferred := Authorize(cfg, req, plan);
    if failure.Some? {
      return failure.value, trace + deferred;
    }
    resp, trace := Store(cfg, req, videoID, metadata, trace, deferred);
  }
}
