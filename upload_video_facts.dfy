/** What the step table of `handlerUploadVideo` promises about every request: which
    requests get which response, that the temp file and the uploaded part are always
    cleaned up, and that the object store and the database are written only as planned. */
module UploadVideoFacts {
  import opened Wrappers
  import opened Strings
  import opened Base64Url
  import opened Api
  import opened AspectRatio
  import opened StorageKey
  import opened UploadVideo

  /** The effects of the first `k` steps, when all of them pass. */
  function Done(cfg: Config, req: VideoRequest, plan: Plan, k: nat): seq<Effect>
    requires k <= StepCount
  {
    if k == 0 then [] else Done(cfg, req, plan, k - 1) + StepEffects(cfg, req, plan, StepAt(k - 1), true)
  }

  /** The defer stack once the first `k` steps have passed, most recent first. */
  function Pending(k: nat): seq<Effect>
    requires k <= StepCount
  {
    if k == 0 then [] else Deferred(StepAt(k - 1)) + Pending(k - 1)
  }

  /** The steps from `i` up to the first failing one after it all pass. */
  lemma {:induction false} PassedUpTo(req: VideoRequest, i: nat, k: nat)
    requires i <= k <= StepCount && k <= FailedFrom(req, i) && PassedBefore(req, i)
    ensures PassedBefore(req, k)
    decreases k - i
  {
    if i < k {
      assert Passes(req, StepAt(i)) && FailedFrom(req, i) == FailedFrom(req, i + 1);
      PassedUpTo(req, i + 1, k);
    }
  }

  /** The steps before the first failing one all pass. */
  lemma PassedBeforeFailure(req: VideoRequest)
    ensures PassedBefore(req, Failed(req))
  {
    PassedUpTo(req, 0, Failed(req));
  }

  /** Once the first `k` steps pass, the handler stands at step `k` with their effects done
      and their deferred calls pushed. */
  lemma {:induction false} RunAfter(cfg: Config, req: VideoRequest, plan: Plan, k: nat)
    requires k <= StepCount && PassedBefore(req, k)
    ensures Trace(cfg, req, plan) == Run(cfg, req, plan, k, Done(cfg, req, plan, k), Pending(k))
  {
    if k > 0 {
      RunAfter(cfg, req, plan, k - 1);
      assert Passes(req, StepAt(k - 1));
      assert Run(cfg, req, plan, k - 1, Done(cfg, req, plan, k - 1), Pending(k - 1)) ==
             Run(cfg, req, plan, k, Done(cfg, req, plan, k), Pending(k));
    }
  }

  /** The effects of a request: those of the steps before the first failing one, then
      the failing step's attempt, then the deferred calls of the steps that passed. */
  lemma Outcome(cfg: Config, req: VideoRequest, plan: Plan)
    ensures var k := Failed(req);
      Trace(cfg, req, plan) ==
        Done(cfg, req, plan, k) + (if k < StepCount then StepEffects(cfg, req, plan, StepAt(k), false) else []) + Pending(k)
  {
    var k := Failed(req);
    PassedBeforeFailure(req);
    RunAfter(cfg, req, plan, k);
    FailedIsFirstFailure(req);
    Unchanged(Done(cfg, req, plan, k), Pending(k));
  }

  /** The defer stack holds the temp file's close and removal once it exists, and the
      uploaded part's close once that is open. */
  lemma {:induction false} PendingShape(k: nat)
    requires k <= StepCount
    ensures Pending(k) == (if k > Rank(CreateTempFile) then [CloseTemp, RemoveTemp] else []) +
                          (if k > Rank(ReadForm) then [CloseUpload] else [])
  {
    if k > 0 {
      PendingShape(k - 1);
    }
  }

  /** Up to the temp file, the only effects are opening the part and creating the file. */
  lemma {:induction false} DoneEarly(cfg: Config, req: VideoRequest, plan: Plan, k: nat)
    requires k <= Rank(CreateTempFile) + 1
    ensures Done(cfg, req, plan, k) == (if k > Rank(ReadForm) then [OpenUpload] else []) +
                                 (if k > Rank(CreateTempFile) then [CreateTemp] else [])
  {
    if k > 0 {
      DoneEarly(cfg, req, plan, k - 1);
    }
  }

  /** The handler has side effects exactly when it gets past reading the form file:
      a rejected request (bad ID, missing or invalid token, unknown video, not the owner)
      or an unreadable form touches nothing, whatever the plan. */
  lemma NothingBeforeTheForm(cfg: Config, req: VideoRequest, plan: Plan)
    ensures Trace(cfg, req, plan) == [] <==> exists s :: Rank(s) <= Rank(ReadForm) && !Passes(req, s)
  {
    var k := Failed(req);
    Outcome(cfg, req, plan);
    FailedIsFirstFailure(req);
    PendingShape(k);
    if k <= Rank(ReadForm) {
      DoneEarly(cfg, req, plan, k);
      assert Rank(StepAt(k)) <= Rank(ReadForm) && !Passes(req, StepAt(k));
    } else {
      assert Pending(k)[|Pending(k)| - 1] == CloseUpload;
      forall s | Rank(s) <= Rank(ReadForm)
        ensures Passes(req, s)
      {
        assert Passes(req, StepAt(Rank(s)));
      }
    }
  }

  /** A caller who does not own the video gets 401 and the handler touches nothing. */
  lemma NonOwnerRejected(cfg: Config, req: VideoRequest)
    requires req.videoID.Some? && req.token.Some? && req.user.Some? && req.record.Some?
    requires req.record.value.userID != req.user.value
    ensures VideoResponse(cfg, req) == Error(401, "User not authorized")
    ensures VideoTrace(cfg, req) == []
  {
    assert PassedBefore(req, 1);
    assert PassedBefore(req, 2);
    assert PassedBefore(req, 3);
    assert PassedBefore(req, Rank(CheckOwner));
    Attempt(cfg, req, PlanOf(cfg, req), CheckOwner, [], []);
    NothingBeforeTheForm(cfg, req, PlanOf(cfg, req));
  }

  /** Every exit, early or not, closes the uploaded part and closes and removes the temp
      file once they exist, whatever the plan. */
  lemma CleanedUp(cfg: Config, req: VideoRequest, plan: Plan)
    ensures !UploadOpen(Trace(cfg, req, plan))
    ensures !TempOpen(Trace(cfg, req, plan))
    ensures !TempFileExists(Trace(cfg, req, plan))
  {
    Outcome(cfg, req, plan);
    PendingShape(Failed(req));
    if Failed(req) <= Rank(CreateTempFile) {
      StoppedBeforeTempFile(cfg, req, plan);
    } else {
      var k := Failed(req);
      var middle := Done(cfg, req, plan, k) + (if k < StepCount then StepEffects(cfg, req, plan, StepAt(k), false) else []);
      ClosedAtExit(middle, Pending(k));
    }
  }

  /** A request that stops before the temp file exists: the part, when opened, is closed
      last, and no temp file was created. */
  lemma StoppedBeforeTempFile(cfg: Config, req: VideoRequest, plan: Plan)
    requires Failed(req) <= Rank(CreateTempFile)
    requires Trace(cfg, req, plan) == Done(cfg, req, plan, Failed(req)) + StepEffects(cfg, req, plan, StepAt(Failed(req)), false) + Pending(Failed(req))
    requires Pending(Failed(req)) == (if Failed(req) > Rank(ReadForm) then [CloseUpload] else [])
    ensures !UploadOpen(Trace(cfg, req, plan))
    ensures !TempOpen(Trace(cfg, req, plan))
    ensures !TempFileExists(Trace(cfg, req, plan))
  {
    var k := Failed(req);
    var trace := Trace(cfg, req, plan);
    DoneEarly(cfg, req, plan, k);
    assert StepEffects(cfg, req, plan, StepAt(k), false) == [];
    if k <= Rank(ReadForm) {
      assert trace == [];
    } else {
      assert trace == [OpenUpload, CloseUpload];
      OnlyTheUpload(trace);
    }
  }


  /** A step before `k` passes once every step before `k` does. */
  lemma {:induction false} PassedStep(req: VideoRequest, k: nat, s: Step)
    requires k <= StepCount && PassedBefore(req, k) && Rank(s) < k
    ensures Passes(req, s)
  {
    if Rank(s) < k - 1 {
      PassedStep(req, k - 1, s);
    }
  }

  /** A step ranked before the first failing one passes. */
  lemma Reached(req: VideoRequest, s: Step)
    requires Rank(s) < Failed(req)
    ensures Passes(req, s)
  {
    PassedBeforeFailure(req);
    PassedStep(req, Failed(req), s);
  }

  /** Each position holds a different step. */
  lemma RankOfStep(k: nat)
    requires k < StepCount
    ensures Rank(StepAt(k)) == k
  {
  }

  /** The object store and the database are written only with the planned object and
      the planned record. */
  predicate AsPlanned(cfg: Config, req: VideoRequest, plan: Plan, e: Effect) {
    (e.PutObject? ==>
      plan.key.Some? && req.mediaType.Some? &&
      e == PutObject(cfg.bucket, plan.key.value, req.mediaType.value, req.putOk)) &&
    (e.UpdateVideo? ==>
      plan.record.Some? && e == UpdateVideo(plan.record.value, req.updateOk))
  }

  /** Only the upload step writes to the object store and only the update step to the
      database, each as planned. */
  lemma StepProvenance(cfg: Config, req: VideoRequest, plan: Plan, s: Step, ok: bool, e: Effect)
    requires e in StepEffects(cfg, req, plan, s, ok)
    ensures AsPlanned(cfg, req, plan, e)
    ensures e.PutObject? ==> s == Upload
    ensures e.UpdateVideo? ==> s == UpdateRecord
  {
    match s
    case Upload =>
    case UpdateRecord =>
    case _ =>
  }

  /** The effects of passing steps write only as planned, and only from the upload and
      update steps on. */
  lemma {:induction false} DoneProvenance(cfg: Config, req: VideoRequest, plan: Plan, k: nat, e: Effect)
    requires k <= StepCount && e in Done(cfg, req, plan, k)
    ensures AsPlanned(cfg, req, plan, e)
    ensures e.PutObject? ==> Rank(Upload) < k
    ensures e.UpdateVideo? ==> Rank(UpdateRecord) < k
  {
    var last := StepEffects(cfg, req, plan, StepAt(k - 1), true);
    assert Done(cfg, req, plan, k) == Done(cfg, req, plan, k - 1) + last;
    if e in Done(cfg, req, plan, k - 1) {
      DoneProvenance(cfg, req, plan, k - 1, e);
    } else {
      assert e in last;
      StepProvenance(cfg, req, plan, StepAt(k - 1), true, e);
      RankOfStep(k - 1);
    }
  }

  /** An effect of a request comes from a passing step, from the failing step's attempt,
      or from the defer stack, which only closes and removes. */
  lemma Origin(cfg: Config, req: VideoRequest, plan: Plan, e: Effect)
    requires e in Trace(cfg, req, plan)
    ensures var k := Failed(req);
      e in Done(cfg, req, plan, k) ||
      (k < StepCount && e in StepEffects(cfg, req, plan, StepAt(k), false)) ||
      e == CloseTemp || e == RemoveTemp || e == CloseUpload
  {
    var k := Failed(req);
    var middle := Done(cfg, req, plan, k) + (if k < StepCount then StepEffects(cfg, req, plan, StepAt(k), false) else []);
    assert e in middle || e in Pending(k) by {
      Outcome(cfg, req, plan);
    }
    if e in Pending(k) {
      PendingShape(k);
    }
  }

  /** Every write of a request is a planned one, made by a step the handler reached. */
  lemma Provenance(cfg: Config, req: VideoRequest, plan: Plan, e: Effect)
    requires e in Trace(cfg, req, plan)
    ensures AsPlanned(cfg, req, plan, e)
    ensures e.PutObject? ==> Rank(Upload) <= Failed(req)
    ensures e.UpdateVideo? ==> Rank(UpdateRecord) <= Failed(req)
  {
    var k := Failed(req);
    Origin(cfg, req, plan, e);
    if e in Done(cfg, req, plan, k) {
      DoneProvenance(cfg, req, plan, k, e);
    } else if k < StepCount && e in StepEffects(cfg, req, plan, StepAt(k), false) {
      StepProvenance(cfg, req, plan, StepAt(k), false, e);
      RankOfStep(k);
    }
  }

  /** The handler stores an object only after the upload passed the mp4 check, in the
      configured bucket, with content type `video/mp4`, under a key made of the directory
      of the video's aspect ratio, the random name and the `mp4` extension. */
  lemma StoredAsPlanned(cfg: Config, req: VideoRequest, e: Effect)
    requires e in VideoTrace(cfg, req) && e.PutObject?
    ensures req.mediaType == Some("video/mp4") && req.random.Some? && RatioOf(req.probe).Some?
    ensures e.bucket == cfg.bucket && e.contentType == "video/mp4" && e.ok == req.putOk
    ensures ParseKey(e.key) ==
      Some(KeyParts(Directory(RatioOf(req.probe).value), Encode(req.random.value), "mp4"))
  {
    Provenance(cfg, req, PlanOf(cfg, req), e);
    UploadReached(req);
    Mp4Key(req);
    Mp4KeyParts(RatioOf(req.probe).value, req.random.value);
  }

  /** The upload step is reached only after the mp4 check, the name and the probe
      passed. */
  lemma UploadReached(req: VideoRequest)
    requires Rank(Upload) <= Failed(req)
    ensures req.mediaType == Some("video/mp4") && req.random.Some? && req.probe.Parsed?
  {
    Reached(req, CheckMp4);
    Reached(req, GenerateName);
    Reached(req, ProbeRatio);
  }

  /** An mp4 upload is stored with the `mp4` extension. */
  lemma Mp4Key(req: VideoRequest)
    requires req.mediaType == Some("video/mp4") && req.random.Some? && req.probe.Parsed?
    ensures PlannedKey(req) == Some(VideoKey(RatioOf(req.probe).value, req.random.value, "mp4"))
  {
    Mp4Extension();
  }

  /** The effects of the first `k` steps include those of the first `j`. */
  lemma {:induction false} DoneGrows(cfg: Config, req: VideoRequest, plan: Plan, j: nat, k: nat, e: Effect)
    requires j <= k <= StepCount && e in Done(cfg, req, plan, j)
    ensures e in Done(cfg, req, plan, k)
    decreases k - j
  {
    if j < k {
      DoneGrows(cfg, req, plan, j, k - 1, e);
    }
  }

  /** The effects of the first `j` steps are the start of those of the first `k`, for
      `j <= k`. */
  lemma {:induction false} DonePrefix(cfg: Config, req: VideoRequest, plan: Plan, j: nat, k: nat)
    requires j <= k <= StepCount
    ensures |Done(cfg, req, plan, j)| <= |Done(cfg, req, plan, k)|
    ensures Done(cfg, req, plan, k)[..|Done(cfg, req, plan, j)|] == Done(cfg, req, plan, j)
    decreases k - j
  {
    if j < k {
      DonePrefix(cfg, req, plan, j, k - 1);
      var before := Done(cfg, req, plan, k - 1);
      var n := |Done(cfg, req, plan, j)|;
      assert Done(cfg, req, plan, k) == before + StepEffects(cfg, req, plan, StepAt(k - 1), true);
      assert Done(cfg, req, plan, k)[..n] == before[..n];
    }
  }

  /** The trace begins with the effects of the steps before the first failing one. */
  lemma TraceStartsWithDone(cfg: Config, req: VideoRequest, plan: Plan, k: nat)
    requires k <= Failed(req)
    ensures |Done(cfg, req, plan, k)| <= |Trace(cfg, req, plan)|
    ensures Trace(cfg, req, plan)[..|Done(cfg, req, plan, k)|] == Done(cfg, req, plan, k)
  {
    var f := Failed(req);
    var done := Done(cfg, req, plan, f);
    var n := |Done(cfg, req, plan, k)|;
    DonePrefix(cfg, req, plan, k, f);
    assert Trace(cfg, req, plan)[..|done|] == done by {
      Outcome(cfg, req, plan);
    }
    assert done[..n] == Done(cfg, req, plan, k);
  }

  /** Once the upload step passes, the trace holds the successful put of the planned
      object. */
  lemma StoredOnce(cfg: Config, req: VideoRequest, plan: Plan)
    requires Rank(Upload) < Failed(req) && plan.key.Some?
    ensures PutObject(cfg.bucket, plan.key.value, "video/mp4", true) in Trace(cfg, req, plan)
  {
    Reached(req, CheckMp4);
    Reached(req, Upload);
    var put := PutObject(cfg.bucket, plan.key.value, "video/mp4", true);
    assert StepEffects(cfg, req, plan, Upload, true) == [put];
    assert put in Done(cfg, req, plan, Rank(Upload) + 1);
    Performed(cfg, req, plan, Rank(Upload) + 1, put);
  }

  /** What the steps before the first failing one did is in the trace. */
  lemma Performed(cfg: Config, req: VideoRequest, plan: Plan, k: nat, e: Effect)
    requires k <= Failed(req) && e in Done(cfg, req, plan, k)
    ensures e in Trace(cfg, req, plan)
  {
    DoneGrows(cfg, req, plan, k, Failed(req), e);
    Outcome(cfg, req, plan);
  }

  /** The record is written back only after the object was stored, and the record written
      is the stored one with its video URL, and nothing else, changed to the URL of the
      stored object. */
  lemma UpdatedAsPlanned(cfg: Config, req: VideoRequest, e: Effect)
    requires e in VideoTrace(cfg, req) && e.UpdateVideo?
    ensures req.putOk && req.record.Some?
    ensures exists key ::
      Before(VideoTrace(cfg, req), PutObject(cfg.bucket, key, "video/mp4", true), e) &&
      e.record == req.record.value.(videoURL := Some(S3Url(cfg.bucket, cfg.region, key)))
  {
    var plan := PlanOf(cfg, req);
    UpdateAfterStore(cfg, req, plan, e);
    PlannedUpdate(cfg, req, e);
    var key := plan.key.value;
    assert Before(Trace(cfg, req, plan), PutObject(cfg.bucket, key, "video/mp4", true), e);
  }

  /** A record update happens only after a successful put, as planned, and when there is a
      key, after the successful put of the planned object under it. */
  lemma UpdateAfterStore(cfg: Config, req: VideoRequest, plan: Plan, e: Effect)
    requires e in Trace(cfg, req, plan) && e.UpdateVideo?
    ensures req.putOk && AsPlanned(cfg, req, plan, e)
    ensures plan.key.Some? ==>
      Before(Trace(cfg, req, plan), PutObject(cfg.bucket, plan.key.value, "video/mp4", true), e)
  {
    Provenance(cfg, req, plan, e);
    PutPassed(req);
    if plan.key.Some? {
      PutBeforeUpdate(cfg, req, plan, e);
    }
  }

  /** The update step is reached only after a successful put. */
  lemma PutPassed(req: VideoRequest)
    requires Rank(UpdateRecord) <= Failed(req)
    ensures req.putOk
  {
    Reached(req, Upload);
  }

  /** Under a key, the successful put of the planned object comes before a record update
      in the trace. */
  lemma PutBeforeUpdate(cfg: Config, req: VideoRequest, plan: Plan, e: Effect)
    requires e in Trace(cfg, req, plan) && e.UpdateVideo?
    requires Rank(UpdateRecord) <= Failed(req) && plan.key.Some?
    ensures Before(Trace(cfg, req, plan), PutObject(cfg.bucket, plan.key.value, "video/mp4", true), e)
  {
    var t := Trace(cfg, req, plan);
    var stored := Done(cfg, req, plan, Rank(UpdateRecord));
    UpdateFollowsDone(cfg, req, plan, e);
    StoredLast(cfg, req, plan);
    TraceStartsWithDone(cfg, req, plan, Rank(UpdateRecord));
    var j :| |stored| <= j < |t| && t[j] == e;
    assert t[..|stored|][|stored| - 1] == PutObject(cfg.bucket, plan.key.value, "video/mp4", true);
  }

  /** A record update in the trace comes after everything the steps before the update
      step did. */
  lemma UpdateFollowsDone(cfg: Config, req: VideoRequest, plan: Plan, e: Effect)
    requires e in Trace(cfg, req, plan) && e.UpdateVideo?
    ensures Rank(UpdateRecord) <= Failed(req)
    ensures exists j :: |Done(cfg, req, plan, Rank(UpdateRecord))| <= j < |Trace(cfg, req, plan)| && Trace(cfg, req, plan)[j] == e
  {
    Provenance(cfg, req, plan, e);
    var t := Trace(cfg, req, plan);
    var n := |Done(cfg, req, plan, Rank(UpdateRecord))|;
    TraceStartsWithDone(cfg, req, plan, Rank(UpdateRecord));
    var j :| 0 <= j < |t| && t[j] == e;
    assert n <= j by {
      if j < n {
        assert t[..n][j] == e;
        DoneProvenance(cfg, req, plan, Rank(UpdateRecord), e);
        assert false;
      }
    }
  }

  /** Once the update step is reached under a key, the last thing the steps before it did
      is the successful put of the planned object. */
  lemma StoredLast(cfg: Config, req: VideoRequest, plan: Plan)
    requires Rank(UpdateRecord) <= Failed(req) && plan.key.Some?
    ensures var stored := Done(cfg, req, plan, Rank(UpdateRecord));
      |stored| > 0 && stored[|stored| - 1] == PutObject(cfg.bucket, plan.key.value, "video/mp4", true)
  {
    Reached(req, CheckMp4);
    Reached(req, Upload);
    assert StepEffects(cfg, req, plan, Upload, true) == [PutObject(cfg.bucket, plan.key.value, "video/mp4", true)];
  }

  /** The planned update writes the stored record with its video URL, and nothing else,
      set to the URL of the planned key. */
  lemma PlannedUpdate(cfg: Config, req: VideoRequest, e: Effect)
    requires e.UpdateVideo? && AsPlanned(cfg, req, PlanOf(cfg, req), e)
    ensures req.record.Some? && PlanOf(cfg, req).key.Some?
    ensures e.record == req.record.value.(videoURL := Some(S3Url(cfg.bucket, cfg.region, PlanOf(cfg, req).key.value)))
  {
  }

  /** The handler answers 200 exactly when every step passes; the body is then the
      record it wrote back. */
  lemma Succeeds(cfg: Config, req: VideoRequest)
    ensures VideoResponse(cfg, req).Json? <==> forall s :: Passes(req, s)
    ensures VideoResponse(cfg, req).Json? ==>
      VideoResponse(cfg, req).status == 200 &&
      UpdateVideo(VideoResponse(cfg, req).body, true) in VideoTrace(cfg, req)
  {
    var k := Failed(req);
    FailedIsFirstFailure(req);
    if k == StepCount {
      PassedBeforeFailure(req);
      forall s
        ensures Passes(req, s)
      {
        PassedStep(req, k, s);
      }
      WrittenBack(cfg, req);
    } else {
      assert !Passes(req, StepAt(k));
    }
  }

  /** When every step passes, the record in the response is the one written back. */
  lemma WrittenBack(cfg: Config, req: VideoRequest)
    requires Failed(req) == StepCount
    ensures PublishedRecord(cfg, req).Some?
    ensures VideoResponse(cfg, req) == Json(200, PublishedRecord(cfg, req).value)
    ensures UpdateVideo(PublishedRecord(cfg, req).value, true) in VideoTrace(cfg, req)
  {
    PassedBeforeFailure(req);
    AllPass(cfg, req);
    RecordWritten(cfg, req, PlanOf(cfg, req));
  }

  /** When every step passes, the planned record is written back, successfully. */
  lemma RecordWritten(cfg: Config, req: VideoRequest, plan: Plan)
    requires Failed(req) == StepCount && plan.record.Some?
    ensures UpdateVideo(plan.record.value, true) in Trace(cfg, req, plan)
  {
    Reached(req, UpdateRecord);
    var put := UpdateVideo(plan.record.value, true);
    assert StepEffects(cfg, req, plan, UpdateRecord, true) == [put];
    assert put in Done(cfg, req, plan, StepCount);
    Performed(cfg, req, plan, StepCount, put);
  }

  /** The handler panics, and the client gets no response, exactly when the checks before
      it pass and the media type has no `/`. */
  lemma AbortsExactly(cfg: Config, req: VideoRequest)
    ensures VideoResponse(cfg, req) == Aborted <==>
      (forall s :: Rank(s) < Rank(TakeExtension) ==> Passes(req, s)) &&
      req.mediaType.Some? && '/' !in req.mediaType.value
  {
    if VideoResponse(cfg, req) == Aborted {
      AbortedAtSplit(cfg, req);
    }
    if (forall s :: Rank(s) < Rank(TakeExtension) ==> Passes(req, s)) &&
       req.mediaType.Some? && '/' !in req.mediaType.value {
      FailedIsFirstFailure(req);
      assert Failed(req) == Rank(TakeExtension);
    }
  }

  /** Only the split of the media type aborts, once the steps before it pass. */
  lemma AbortedAtSplit(cfg: Config, req: VideoRequest)
    requires VideoResponse(cfg, req) == Aborted
    ensures forall s :: Rank(s) < Rank(TakeExtension) ==> Passes(req, s)
    ensures req.mediaType.Some? && '/' !in req.mediaType.value
  {
    FailedIsFirstFailure(req);
    assert Failed(req) == Rank(TakeExtension);
    forall s | Rank(s) < Rank(TakeExtension)
      ensures Passes(req, s)
    {
      Reached(req, s);
    }
  }
}
