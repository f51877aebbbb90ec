/** What the step table of `handlerUploadThumbnail` promises about every request: which
    requests get which response, that the uploaded part is always closed, and that the
    asset file and the database are written only as planned and only for the owner. */
module UploadThumbnailFacts {
  import opened Wrappers
  import opened FilePath
  import opened Api
  import opened StorageKey
  import opened UploadThumbnail

  /** The effects of the first `k` steps, when all of them pass. */
  function Done(cfg: Config, req: ThumbnailRequest, plan: Plan, k: nat): seq<Effect>
    requires k <= StepCount
  {
    if k == 0 then [] else Done(cfg, req, plan, k - 1) + StepEffects(cfg, req, plan, StepAt(k - 1), true)
  }

  /** The defer stack once the first `k` steps have passed, most recent first. */
  function Pending(k: nat): seq<Effect>
    requires k <= StepCount
  {
    if k == 0 then [] else Deferred(StepAt(k - 1)) + Pending(k - 1)
  }

  /** The steps from `i` up to the first failing one after it all pass. */
  lemma {:induction false} PassedUpTo(req: ThumbnailRequest, i: nat, k: nat)
    requires i <= k <= StepCount && k <= FailedFrom(req, i) && PassedBefore(req, i)
    ensures PassedBefore(req, k)
    decreases k - i
  {
    if i < k {
      assert Passes(req, StepAt(i)) && FailedFrom(req, i) == FailedFrom(req, i + 1);
      PassedUpTo(req, i + 1, k);
    }
  }

  /** The steps before the first failing one all pass. */
  lemma PassedBeforeFailure(req: ThumbnailRequest)
    ensures PassedBefore(req, Failed(req))
  {
    PassedUpTo(req, 0, Failed(req));
  }

  /** A step before `k` passes once every step before `k` does. */
  lemma {:induction false} PassedStep(req: ThumbnailRequest, k: nat, s: Step)
    requires k <= StepCount && PassedBefore(req, k) && Rank(s) < k
    ensures Passes(req, s)
  {
    if Rank(s) < k - 1 {
      PassedStep(req, k - 1, s);
    }
  }

  /** Each position holds a different step. */
  lemma RankOfStep(k: nat)
    requires k < StepCount
    ensures Rank(StepAt(k)) == k
  {
  }

  /** Once the first `k` steps pass, the handler stands at step `k` with their effects done
      and their deferred calls pushed. */
  lemma {:induction false} RunAfter(cfg: Config, req: ThumbnailRequest, plan: Plan, k: nat)
    requires k <= StepCount && PassedBefore(req, k)
    ensures Trace(cfg, req, plan) == Run(cfg, req, plan, k, Done(cfg, req, plan, k), Pending(k))
  {
    if k > 0 {
      RunAfter(cfg, req, plan, k - 1);
      assert Passes(req, StepAt(k - 1));
      assert Run(cfg, req, plan, k - 1, Done(cfg, req, plan, k - 1), Pending(k - 1)) ==
             Run(cfg, req, plan, k, Done(cfg, req, plan, k), Pending(k));
    }
  }

  /** The effects of a request: those of the steps before the first failing one, then
      the failing step's attempt, then the deferred calls of the steps that passed. */
  lemma Outcome(cfg: Config, req: ThumbnailRequest, plan: Plan)
    ensures var k := Failed(req);
      Trace(cfg, req, plan) ==
        Done(cfg, req, plan, k) + (if k < StepCount then StepEffects(cfg, req, plan, StepAt(k), false) else []) + Pending(k)
  {
    var k := Failed(req);
    PassedBeforeFailure(req);
    RunAfter(cfg, req, plan, k);
    FailedIsFirstFailure(req);
    Unchanged(Done(cfg, req, plan, k), Pending(k));
  }

  /** The defer stack holds the part's close once the part is open. */
  lemma {:induction false} PendingShape(k: nat)
    requires k <= StepCount
    ensures Pending(k) == if k > Rank(ReadForm) then [CloseUpload] else []
  {
    if k > 0 {
      PendingShape(k - 1);
    }
  }

  /** Up to the ownership check, the only effect is opening the part. */
  lemma {:induction false} DoneEarly(cfg: Config, req: ThumbnailRequest, plan: Plan, k: nat)
    requires k <= Rank(TakeExtension) + 1
    ensures Done(cfg, req, plan, k) == if k > Rank(ReadForm) then [OpenUpload] else []
  {
    if k > 0 {
      DoneEarly(cfg, req, plan, k - 1);
    }
  }

  /** A caller who does not own the video gets 401; the handler has only opened and
      closed the uploaded part, and writes neither the asset file nor the record. */
  lemma NonOwnerRejected(cfg: Config, req: ThumbnailRequest)
    requires req.videoID.Some? && req.token.Some? && req.user.Some? && req.formOk && req.record.Some?
    requires req.record.value.userID != req.user.value
    ensures ThumbnailResponse(cfg, req) == Error(401, "Not allowed")
    ensures ThumbnailTrace(cfg, req) == [OpenUpload, CloseUpload]
  {
    assert PassedBefore(req, 1);
    assert PassedBefore(req, 2);
    assert PassedBefore(req, 3);
    assert PassedBefore(req, 4);
    assert PassedBefore(req, Rank(CheckOwner));
    Attempt(cfg, req, PlanOf(cfg, req), CheckOwner, [], []);
    PassedBeforeFailed(req, Rank(CheckOwner));
    StoppedAtOwner(cfg, req, PlanOf(cfg, req));
  }

  /** Stopped by the ownership check, the handler has opened and closed the part,
      whatever the plan. */
  lemma StoppedAtOwner(cfg: Config, req: ThumbnailRequest, plan: Plan)
    requires Failed(req) == Rank(CheckOwner)
    ensures Trace(cfg, req, plan) == [OpenUpload, CloseUpload]
  {
    var k := Failed(req);
    Outcome(cfg, req, plan);
    PendingShape(k);
    DoneEarly(cfg, req, plan, k);
    assert StepEffects(cfg, req, plan, StepAt(k), false) == [];
  }

  /** Every exit, early or not, closes the uploaded part once it is open, whatever the
      plan. */
  lemma UploadClosed(cfg: Config, req: ThumbnailRequest, plan: Plan)
    ensures !UploadOpen(Trace(cfg, req, plan))
  {
    var k := Failed(req);
    Outcome(cfg, req, plan);
    PendingShape(k);
    if k <= Rank(ReadForm) {
      DoneEarly(cfg, req, plan, k);
      assert k < StepCount && StepEffects(cfg, req, plan, StepAt(k), false) == [];
      assert Trace(cfg, req, plan) == [];
    } else {
      var trace := Trace(cfg, req, plan);
      assert trace[|trace| - 1] == CloseUpload;
    }
  }

  /** The asset file and the database are written only with the planned path and the
      planned record. */
  predicate AsPlanned(plan: Plan, req: ThumbnailRequest, e: Effect) {
    ((e.CreateAsset? || e.WriteAsset?) ==>
      plan.path.Some? && e.path == plan.path.value) &&
    (e.UpdateVideo? ==>
      plan.record.Some? && e == UpdateVideo(plan.record.value, req.updateOk))
  }

  /** Only the asset steps write the asset file and only the update step the database,
      each as planned. */
  lemma StepProvenance(cfg: Config, req: ThumbnailRequest, plan: Plan, s: Step, ok: bool, e: Effect)
    requires e in StepEffects(cfg, req, plan, s, ok)
    ensures AsPlanned(plan, req, e)
    ensures (e.CreateAsset? || e.WriteAsset?) ==> s == CreateAssetFile || s == CopyUpload
    ensures e.UpdateVideo? ==> s == UpdateRecord
  {
    match s
    case CreateAssetFile =>
    case CopyUpload =>
    case UpdateRecord =>
    case _ =>
  }

  /** The effects of passing steps write only as planned, and only from the asset steps
      on. */
  lemma {:induction false} DoneProvenance(cfg: Config, req: ThumbnailRequest, plan: Plan, k: nat, e: Effect)
    requires k <= StepCount && e in Done(cfg, req, plan, k)
    ensures AsPlanned(plan, req, e)
    ensures (e.CreateAsset? || e.WriteAsset?) ==> Rank(CreateAssetFile) < k
    ensures e.UpdateVideo? ==> Rank(UpdateRecord) < k
  {
    if e in Done(cfg, req, plan, k - 1) {
      DoneProvenance(cfg, req, plan, k - 1, e);
    } else {
      StepProvenance(cfg, req, plan, StepAt(k - 1), true, e);
      RankOfStep(k - 1);
    }
  }

  /** An effect of a request comes from a passing step, from the failing step's attempt,
      or from the defer stack, which only closes the part. */
  lemma Origin(cfg: Config, req: ThumbnailRequest, plan: Plan, e: Effect)
    requires e in Trace(cfg, req, plan)
    ensures var k := Failed(req);
      e in Done(cfg, req, plan, k) ||
      (k < StepCount && e in StepEffects(cfg, req, plan, StepAt(k), false)) ||
      e == CloseUpload
  {
    Outcome(cfg, req, plan);
    PendingShape(Failed(req));
  }

  /** Every write of a request is a planned one, made by a step the handler reached: the
      asset file is only touched once the caller is known to own the video. */
  lemma Provenance(cfg: Config, req: ThumbnailRequest, plan: Plan, e: Effect)
    requires e in Trace(cfg, req, plan)
    ensures AsPlanned(plan, req, e)
    ensures (e.CreateAsset? || e.WriteAsset?) ==> Rank(CreateAssetFile) <= Failed(req)
    ensures e.UpdateVideo? ==> Rank(UpdateRecord) <= Failed(req)
  {
    var k := Failed(req);
    Origin(cfg, req, plan, e);
    if e in Done(cfg, req, plan, k) {
      DoneProvenance(cfg, req, plan, k, e);
    } else if k < StepCount && e in StepEffects(cfg, req, plan, StepAt(k), false) {
      StepProvenance(cfg, req, plan, StepAt(k), false, e);
      RankOfStep(k);
    }
  }

  /** The thumbnail is written only for the owner of the video, at
      `<assetsRoot>/<videoID>.<ext>` with `ext` the second field of the content type. */
  lemma AssetAsPlanned(cfg: Config, req: ThumbnailRequest, e: Effect)
    requires e in ThumbnailTrace(cfg, req) && (e.CreateAsset? || e.WriteAsset?)
    ensures req.user.Some? && req.record.Some? && req.record.value.userID == req.user.value
    ensures req.videoID.Some? && Extension(req.contentType).Some?
    ensures e.path == Within(Clean(cfg.assetsRoot), req.videoID.value + "." + Extension(req.contentType).value)
  {
    Provenance(cfg, req, PlanOf(cfg, req), e);
    OwnerReached(req);
    AssetPathInRoot(cfg.assetsRoot, req.videoID.value, Extension(req.contentType).value);
  }

  /** The effects of the first `k` steps include those of the first `j`. */
  lemma {:induction false} DoneGrows(cfg: Config, req: ThumbnailRequest, plan: Plan, j: nat, k: nat, e: Effect)
    requires j <= k <= StepCount && e in Done(cfg, req, plan, j)
    ensures e in Done(cfg, req, plan, k)
    decreases k - j
  {
    if j < k {
      DoneGrows(cfg, req, plan, j, k - 1, e);
    }
  }

  /** The effects of the first `j` steps are the start of those of the first `k`, for
      `j <= k`. */
  lemma {:induction false} DonePrefix(cfg: Config, req: ThumbnailRequest, plan: Plan, j: nat, k: nat)
    requires j <= k <= StepCount
    ensures |Done(cfg, req, plan, j)| <= |Done(cfg, req, plan, k)|
    ensures Done(cfg, req, plan, k)[..|Done(cfg, req, plan, j)|] == Done(cfg, req, plan, j)
    decreases k - j
  {
    if j < k {
      DonePrefix(cfg, req, plan, j, k - 1);
      var before := Done(cfg, req, plan, k - 1);
      var n := |Done(cfg, req, plan, j)|;
      assert Done(cfg, req, plan, k) == before + StepEffects(cfg, req, plan, StepAt(k - 1), true);
      assert Done(cfg, req, plan, k)[..n] == before[..n];
    }
  }

  /** The trace begins with the effects of the steps before the first failing one. */
  lemma TraceStartsWithDone(cfg: Config, req: ThumbnailRequest, plan: Plan, k: nat)
    requires k <= Failed(req)
    ensures |Done(cfg, req, plan, k)| <= |Trace(cfg, req, plan)|
    ensures Trace(cfg, req, plan)[..|Done(cfg, req, plan, k)|] == Done(cfg, req, plan, k)
  {
    var f := Failed(req);
    var done := Done(cfg, req, plan, f);
    var n := |Done(cfg, req, plan, k)|;
    DonePrefix(cfg, req, plan, k, f);
    assert Trace(cfg, req, plan)[..|done|] == done by {
      Outcome(cfg, req, plan);
    }
    assert done[..n] == Done(cfg, req, plan, k);
  }

  /** The record is written back only after the thumbnail was created and copied, and
      the record written is the stored one with its thumbnail URL, and nothing else,
      changed to the URL the thumbnail is served at. */
  lemma UpdatedAsPlanned(cfg: Config, req: ThumbnailRequest, e: Effect)
    requires e in ThumbnailTrace(cfg, req) && e.UpdateVideo?
    ensures req.created && req.copied && req.record.Some? && req.videoID.Some?
    ensures Extension(req.contentType).Some?
    ensures var ext := Extension(req.contentType).value;
      var path := AssetPath(cfg.assetsRoot, req.videoID.value, ext);
      Before(ThumbnailTrace(cfg, req), CreateAsset(path), WriteAsset(path)) &&
      Before(ThumbnailTrace(cfg, req), WriteAsset(path), e) &&
      e.record == req.record.value.(thumbnailURL := Some(ThumbnailUrl(cfg.port, req.videoID.value, ext)))
  {
    var plan := PlanOf(cfg, req);
    UpdateAfterCopy(cfg, req, plan, e);
    PlannedUpdate(cfg, req, e);
  }

  /** The asset file is touched only once the ownership check passed. */
  lemma OwnerReached(req: ThumbnailRequest)
    requires Rank(CreateAssetFile) <= Failed(req)
    ensures req.user.Some? && req.record.Some? && req.record.value.userID == req.user.value
  {
    Reached(req, CheckOwner);
  }

  /** A step before the first failing one passes. */
  lemma Reached(req: ThumbnailRequest, s: Step)
    requires Rank(s) < Failed(req)
    ensures Passes(req, s)
  {
    PassedBeforeFailure(req);
    PassedStep(req, Failed(req), s);
  }

  /** An effect of the steps that passed is in the trace. */
  lemma Performed(cfg: Config, req: ThumbnailRequest, plan: Plan, k: nat, e: Effect)
    requires k <= Failed(req) && e in Done(cfg, req, plan, k)
    ensures e in Trace(cfg, req, plan)
  {
    DoneGrows(cfg, req, plan, k, Failed(req), e);
    Outcome(cfg, req, plan);
  }

  /** A record update comes after the asset file was created and then written at the
      planned path, whatever the plan. */
  lemma UpdateAfterCopy(cfg: Config, req: ThumbnailRequest, plan: Plan, e: Effect)
    requires e in Trace(cfg, req, plan) && e.UpdateVideo?
    ensures req.created && req.copied && AsPlanned(plan, req, e)
    ensures plan.path.Some? ==>
      Before(Trace(cfg, req, plan), CreateAsset(plan.path.value), WriteAsset(plan.path.value)) &&
      Before(Trace(cfg, req, plan), WriteAsset(plan.path.value), e)
  {
    Provenance(cfg, req, plan, e);
    AssetStepsPassed(req);
    if plan.path.Some? {
      WriteBeforeUpdate(cfg, req, plan, e);
    }
  }

  /** The update step is reached only after the asset file was created and written. */
  lemma AssetStepsPassed(req: ThumbnailRequest)
    requires Rank(UpdateRecord) <= Failed(req)
    ensures req.created && req.copied
  {
    Reached(req, CreateAssetFile);
    Reached(req, CopyUpload);
  }

  /** Under a path, the creation and then the write of the asset file come before a
      record update in the trace. */
  lemma WriteBeforeUpdate(cfg: Config, req: ThumbnailRequest, plan: Plan, e: Effect)
    requires e in Trace(cfg, req, plan) && e.UpdateVideo?
    requires Rank(UpdateRecord) <= Failed(req) && plan.path.Some?
    ensures Before(Trace(cfg, req, plan), CreateAsset(plan.path.value), WriteAsset(plan.path.value))
    ensures Before(Trace(cfg, req, plan), WriteAsset(plan.path.value), e)
  {
    var t := Trace(cfg, req, plan);
    var path := plan.path.value;
    var written := Done(cfg, req, plan, Rank(UpdateRecord));
    UpdateFollowsDone(cfg, req, plan, e);
    WrittenLast(cfg, req, plan);
    TraceStartsWithDone(cfg, req, plan, Rank(UpdateRecord));
    var j :| |written| <= j < |t| && t[j] == e;
    assert t[..|written|][|written| - 2] == CreateAsset(path);
    assert t[..|written|][|written| - 1] == WriteAsset(path);
  }

  /** A record update in the trace comes after everything the steps before the update
      step did. */
  lemma UpdateFollowsDone(cfg: Config, req: ThumbnailRequest, plan: Plan, e: Effect)
    requires e in Trace(cfg, req, plan) && e.UpdateVideo?
    ensures Rank(UpdateRecord) <= Failed(req)
    ensures exists j :: |Done(cfg, req, plan, Rank(UpdateRecord))| <= j < |Trace(cfg, req, plan)| && Trace(cfg, req, plan)[j] == e
  {
    Provenance(cfg, req, plan, e);
    var t := Trace(cfg, req, plan);
    var n := |Done(cfg, req, plan, Rank(UpdateRecord))|;
    TraceStartsWithDone(cfg, req, plan, Rank(UpdateRecord));
    var j :| 0 <= j < |t| && t[j] == e;
    assert n <= j by {
      if j < n {
        assert t[..n][j] == e;
        DoneProvenance(cfg, req, plan, Rank(UpdateRecord), e);
        assert false;
      }
    }
  }

  /** Once the update step is reached under a path, the last two things the steps before
      it did are the creation and then the write of the asset file there. */
  lemma WrittenLast(cfg: Config, req: ThumbnailRequest, plan: Plan)
    requires Rank(UpdateRecord) <= Failed(req) && plan.path.Some?
    ensures var written := Done(cfg, req, plan, Rank(UpdateRecord));
      |written| >= 2 &&
      written[|written| - 2] == CreateAsset(plan.path.value) &&
      written[|written| - 1] == WriteAsset(plan.path.value)
  {
    Reached(req, CreateAssetFile);
    Reached(req, CopyUpload);
    var path := plan.path.value;
    assert Done(cfg, req, plan, Rank(CopyUpload)) == Done(cfg, req, plan, Rank(CreateAssetFile)) + [CreateAsset(path)];
    assert Done(cfg, req, plan, Rank(UpdateRecord)) == Done(cfg, req, plan, Rank(CopyUpload)) + [WriteAsset(path)];
  }

  /** The planned update writes the stored record with the thumbnail's URL, and the
      planned path is the asset path of the video. */
  lemma PlannedUpdate(cfg: Config, req: ThumbnailRequest, e: Effect)
    requires e.UpdateVideo? && AsPlanned(PlanOf(cfg, req), req, e)
    ensures req.record.Some? && req.videoID.Some? && Extension(req.contentType).Some?
    ensures PlanOf(cfg, req).path == Some(AssetPath(cfg.assetsRoot, req.videoID.value, Extension(req.contentType).value))
    ensures e.record == req.record.value.(thumbnailURL :=
      Some(ThumbnailUrl(cfg.port, req.videoID.value, Extension(req.contentType).value)))
  {
  }

  /** Once the copy step passed, the asset file was created and written at the planned
      path. */
  lemma AssetWritten(cfg: Config, req: ThumbnailRequest, plan: Plan)
    requires Rank(CopyUpload) < Failed(req) && plan.path.Some?
    ensures CreateAsset(plan.path.value) in Trace(cfg, req, plan) && WriteAsset(plan.path.value) in Trace(cfg, req, plan)
  {
    Reached(req, CreateAssetFile);
    Reached(req, CopyUpload);
    var path := plan.path.value;
    assert Done(cfg, req, plan, Rank(CreateAssetFile) + 1) == Done(cfg, req, plan, Rank(CreateAssetFile)) + [CreateAsset(path)];
    Performed(cfg, req, plan, Rank(CreateAssetFile) + 1, CreateAsset(path));
    assert Done(cfg, req, plan, Rank(CopyUpload) + 1) == Done(cfg, req, plan, Rank(CopyUpload)) + [WriteAsset(path)];
    Performed(cfg, req, plan, Rank(CopyUpload) + 1, WriteAsset(path));
  }

  /** When every step passes, the record in the response is the one written back. */
  lemma WrittenBack(cfg: Config, req: ThumbnailRequest)
    requires Failed(req) == StepCount
    ensures PublishedRecord(cfg, req).Some?
    ensures ThumbnailResponse(cfg, req) == Json(200, PublishedRecord(cfg, req).value)
    ensures UpdateVideo(PublishedRecord(cfg, req).value, true) in ThumbnailTrace(cfg, req)
  {
    PassedBeforeFailure(req);
    AllPass(cfg, req);
    RecordWritten(cfg, req, PlanOf(cfg, req));
  }

  /** When every step passes, the planned record is written back, successfully. */
  lemma RecordWritten(cfg: Config, req: ThumbnailRequest, plan: Plan)
    requires Failed(req) == StepCount && plan.record.Some?
    ensures UpdateVideo(plan.record.value, true) in Trace(cfg, req, plan)
  {
    Reached(req, UpdateRecord);
    var put := UpdateVideo(plan.record.value, true);
    assert StepEffects(cfg, req, plan, UpdateRecord, true) == [put];
    assert put in Done(cfg, req, plan, StepCount);
    Performed(cfg, req, plan, StepCount, put);
  }

  /** The handler answers 200 exactly when every step passes; the body is then the
      record it wrote back. */
  lemma Succeeds(cfg: Config, req: ThumbnailRequest)
    ensures ThumbnailResponse(cfg, req).Json? <==> forall s :: Passes(req, s)
    ensures ThumbnailResponse(cfg, req).Json? ==>
      ThumbnailResponse(cfg, req).status == 200 &&
      UpdateVideo(ThumbnailResponse(cfg, req).body, true) in ThumbnailTrace(cfg, req)
  {
    var k := Failed(req);
    FailedIsFirstFailure(req);
    if k == StepCount {
      PassedBeforeFailure(req);
      forall s
        ensures Passes(req, s)
      {
        PassedStep(req, k, s);
      }
      WrittenBack(cfg, req);
    } else {
      assert !Passes(req, StepAt(k));
    }
  }

  /** The handler panics, and the client gets no response, exactly when the checks before
      it pass and the raw content type has no `/` (an empty header included). */
  lemma AbortsExactly(cfg: Config, req: ThumbnailRequest)
    ensures ThumbnailResponse(cfg, req) == Aborted <==>
      (forall s :: Rank(s) < Rank(TakeExtension) ==> Passes(req, s)) && '/' !in req.contentType
  {
    if ThumbnailResponse(cfg, req) == Aborted {
      AbortedAtSplit(cfg, req);
    }
    if (forall s :: Rank(s) < Rank(TakeExtension) ==> Passes(req, s)) && '/' !in req.contentType {
      FailedIsFirstFailure(req);
      assert Failed(req) == Rank(TakeExtension);
    }
  }

  /** Only the split of the content type aborts, once the steps before it pass. */
  lemma AbortedAtSplit(cfg: Config, req: ThumbnailRequest)
    requires ThumbnailResponse(cfg, req) == Aborted
    ensures forall s :: Rank(s) < Rank(TakeExtension) ==> Passes(req, s)
    ensures '/' !in req.contentType
  {
    FailedIsFirstFailure(req);
    assert Failed(req) == Rank(TakeExtension);
    forall s | Rank(s) < Rank(TakeExtension)
      ensures Passes(req, s)
    {
      Reached(req, s);
    }
  }
}
