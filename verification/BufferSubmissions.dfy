/** Records and payloads against what clients submitted: the create request of an incarnation and the
    latest upload of each of its artifacts. */
module BufferSubmissions {
  import opened Wrappers
  import opened Bytes
  import opened BufferModel
  import opened BufferInvariant
  import opened BufferHistory

  /** The record holds the data of the request that created it. */
  ghost predicate RecordSubmitted(job: Job, created: CreateRecord) {
    && job.id == created.request.jobId && job.datasetId == created.request.datasetId && 1 <= job.datasetId <= 3
    && job.submittedAt == created.at
    && job.commitments == created.request.commitments && job.details == created.request.details
  }

  /** An artifact is part of a payload exactly if it was uploaded, as the bytes of its latest upload with
      the hash of these bytes. */
  ghost predicate Carries(cfg: Config, latest: Option<UploadRecord>, content: Option<(Data, Digest)>) {
    match latest
    case None => content == None
    case Some(u) => content == Some((u.data, cfg.sha256Hex(u.data)))
  }

  /** A payload for an incarnation is made of its create request and its latest uploads. */
  ghost predicate AsSubmitted(
    cfg: Config, created: CreateRecord, uploads: seq<UploadRecord>, uid: nat, payload: Payload)
  {
    && payload.jobId == created.request.jobId
    && payload.datasetId == created.request.datasetId
    && payload.submittedAt == created.at
    && payload.submittedBy == created.request.details.submittedBy
    && payload.keycloakToken == created.request.details.keycloakToken
    && payload.hyperparameters == created.request.details.hyperparameters
    && Carries(cfg, LastUpload(uploads, uid, Model), Some((payload.model, payload.modelSha256)))
    && Carries(cfg, LastUpload(uploads, uid, Weights), Some((payload.weights, payload.weightsSha256)))
    && Carries(cfg, LastUpload(uploads, uid, Preprocessing), payload.preprocessing)
  }

  ghost predicate RecordKept(creates: seq<CreateRecord>, job: Job) {
    job.uid < |creates| && RecordSubmitted(job, creates[job.uid])
  }

  ghost predicate PayloadKept(cfg: Config, log: History, e: PayloadRecord) {
    e.uid < |log.creates| && AsSubmitted(cfg, log.creates[e.uid], log.uploads, e.uid, e.payload)
  }

  ghost predicate SubmissionsKept(cfg: Config, s: State) {
    && |s.log.creates| == s.nextUid
    && (forall id <- s.dirs :: RecordKept(s.log.creates, s.dirs[id].record))
    && (forall e <- s.log.payloads :: PayloadKept(cfg, s.log, e))
  }

  lemma SubmissionsKeptInStep(cfg: Config, s: State, l: Label)
    requires Structure(cfg, s) && UploadsKept(cfg, s) && PayloadsKept(cfg, s) && SubmissionsKept(cfg, s)
    ensures SubmissionsKept(cfg, Apply(cfg, s, l))
  {
    if l.Create? {
      CreateSubmits(cfg, s, l.request);
    } else if l.Upload? {
      UploadSubmits(cfg, s, l.id, l.artifact, l.data);
    } else if l.Recheck? && s.pc.Rechecking? {
      RecheckSubmits(cfg, s);
    } else {
      OtherStepSubmits(cfg, s, l);
    }
  }

  lemma OtherStepSubmits(cfg: Config, s: State, l: Label)
    requires Structure(cfg, s) && SubmissionsKept(cfg, s)
    requires !l.Create? && !l.Upload? && (l.Recheck? ==> !s.pc.Rechecking?)
    ensures SubmissionsKept(cfg, Apply(cfg, s, l))
  {
    RecordsEvolveInStep(cfg, s, l);
    LogsInStep(cfg, s, l);
    if l.Recheck? {
      OtherStepsKeepTables(cfg, s, l);
      IdleRecheck(cfg, s);
    }
    SubmissionStays(s, Apply(cfg, s, l), l);
    PayloadsStay(cfg, s, Apply(cfg, s, l));
  }

  lemma IdleRecheck(cfg: Config, s: State)
    requires !s.pc.Rechecking?
    ensures Apply(cfg, s, Recheck) == s
  {
  }

  lemma PayloadsStay(cfg: Config, s: State, s': State)
    requires forall e <- s.log.payloads :: PayloadKept(cfg, s.log, e)
    requires s'.log.payloads == s.log.payloads && s'.log.creates == s.log.creates && s'.log.uploads == s.log.uploads
    ensures forall e <- s'.log.payloads :: PayloadKept(cfg, s'.log, e)
  {
  }

  lemma CreateSubmits(cfg: Config, s: State, request: CreateRequest)
    requires SubmissionsKept(cfg, s)
    ensures SubmissionsKept(cfg, CreateJobRecord(s, request))
  {
  }

  /** Records keep what was submitted. */
  lemma SubmissionStays(s: State, s': State, l: Label)
    requires forall id <- s.dirs :: RecordKept(s.log.creates, s.dirs[id].record)
    requires RecordsEvolve(s, s', l) && s'.nextUid == s.nextUid && s'.log.creates == s.log.creates
    ensures forall id <- s'.dirs :: RecordKept(s'.log.creates, s'.dirs[id].record)
  {
    forall id <- s'.dirs ensures RecordKept(s'.log.creates, s'.dirs[id].record) {
      assert id in s.dirs && DirEvolves(s.dirs[id], s'.dirs[id], l);
    }
  }

  lemma LastUploadOther(uploads: seq<UploadRecord>, u: UploadRecord, uid: nat, a: Artifact)
    requires u.uid != uid
    ensures LastUpload(uploads + [u], uid, a) == LastUpload(uploads, uid, a)
  {
    assert (uploads + [u])[..|uploads|] == uploads;
  }

  /** An upload for another incarnation is not part of a payload. */
  lemma PayloadStays(cfg: Config, log: History, log': History, u: UploadRecord, e: PayloadRecord)
    requires PayloadKept(cfg, log, e) && e.uid != u.uid
    requires log'.creates == log.creates && log'.uploads == log.uploads + [u]
    ensures PayloadKept(cfg, log', e)
  {
    LastUploadOther(log.uploads, u, e.uid, Model);
    LastUploadOther(log.uploads, u, e.uid, Weights);
    LastUploadOther(log.uploads, u, e.uid, Preprocessing);
  }

  /** Uploads go to pending jobs only, and for those no payload has been built. */
  lemma UploadSubmits(cfg: Config, s: State, id: JobId, artifact: Option<Artifact>, data: Data)
    requires Structure(cfg, s) && PayloadsKept(cfg, s) && SubmissionsKept(cfg, s)
    ensures SubmissionsKept(cfg, ReceiveArtifact(cfg, s, id, artifact, data))
  {
    var l := Upload(id, artifact, data);
    RecordsEvolveInStep(cfg, s, l);
    LogsInStep(cfg, s, l);
    SubmissionStays(s, Apply(cfg, s, l), l);
    UploadTouchesPending(cfg, s, id, artifact, data);
    OnlyPendingChange(cfg, s, Apply(cfg, s, l), id);
  }

  lemma OnlyPendingChange(cfg: Config, s: State, s': State, id: JobId)
    requires PayloadsKept(cfg, s) && forall e <- s.log.payloads :: PayloadKept(cfg, s.log, e)
    requires s'.log.payloads == s.log.payloads && s'.log.creates == s.log.creates
    requires s'.log.uploads != s.log.uploads ==>
      && id in s.dirs && s.dirs[id].record.status.PendingUpload?
      && |s'.log.uploads| == |s.log.uploads| + 1 && s'.log.uploads[..|s.log.uploads|] == s.log.uploads
      && s'.log.uploads[|s.log.uploads|].uid == s.dirs[id].record.uid
    ensures forall e <- s'.log.payloads :: PayloadKept(cfg, s'.log, e)
  {
    if s'.log.uploads != s.log.uploads {
      var u := s'.log.uploads[|s.log.uploads|];
      assert s'.log.uploads == s.log.uploads + [u];
      forall e <- s'.log.payloads ensures PayloadKept(cfg, s'.log, e) {
        assert e.uid == u.uid ==> FrozenAs(cfg, s.dirs[id], e.payload);
        PayloadStays(cfg, s.log, s'.log, u, e);
      }
    }
  }

  /** The payload the recheck builds is made of what was submitted. */
  lemma RecheckSubmits(cfg: Config, s: State)
    requires Structure(cfg, s) && UploadsKept(cfg, s) && SubmissionsKept(cfg, s) && s.pc.Rechecking?
    ensures SubmissionsKept(cfg, Apply(cfg, s, Recheck))
  {
    RecheckLogs(cfg, s);
    LogsInStep(cfg, s, Recheck);
    BuiltAsSubmitted(cfg, s, s.pc.job.id);
  }

  lemma BuiltAsSubmitted(cfg: Config, s: State, id: JobId)
    requires UploadsKept(cfg, s) && SubmissionsKept(cfg, s) && id in s.dirs && Buildable(s.dirs[id])
    ensures
      var uid := s.dirs[id].record.uid;
      uid < |s.log.creates|
      && AsSubmitted(cfg, s.log.creates[uid], s.log.uploads, uid, BuildPayload(cfg, s.dirs[id]))
  {
    assert FileLogged(cfg, s.dirs[id], s.log.uploads, Model);
    assert FileLogged(cfg, s.dirs[id], s.log.uploads, Weights);
    assert FileLogged(cfg, s.dirs[id], s.log.uploads, Preprocessing);
    assert RecordKept(s.log.creates, s.dirs[id].record);
  }
}
