/** How records change from step to step, and what the machine's history says about them. */
module BufferHistory {
  import opened Wrappers
  import opened Bytes
  import opened BufferModel
  import opened BufferInvariant

  // ---------------------------------------------------------------- one step of a record

  /** pending_upload, queued, dispatched, complete, in that order and no other way. */
  predicate StatusStep(a: Status, b: Status) {
    || a == b
    || (a.PendingUpload? && b.Queued?)
    || (a.Queued? && b.Dispatched?)
    || (a.Dispatched? && b.Complete?)
  }

  /** What a step may do to a job directory: submission data never changes, artifacts only by an
      upload to a pending job, the attempt count only when a start command ends, dispatch data only
      by marking, and a complete record is final. */
  ghost predicate DirEvolves(d: JobDir, d': JobDir, l: Label) {
    && d'.record == d.record.(
         status := d'.record.status, updatedAt := d'.record.updatedAt,
         gpuAttempts := d'.record.gpuAttempts, target := d'.record.target,
         assignedTee := d'.record.assignedTee, dispatchedAt := d'.record.dispatchedAt,
         completedAt := d'.record.completedAt)
    && StatusStep(d.record.status, d'.record.status)
    && (d'.files == d.files || (l.Upload? && d.record.status.PendingUpload?))
    && (d'.record.gpuAttempts == d.record.gpuAttempts || (l.EndStart? && d.record.status.Queued?))
    && (d'.record.target == d.record.target || (IsProvisioning(l) && d.record.status.Queued?))
    && ((d'.record.assignedTee == d.record.assignedTee && d'.record.dispatchedAt == d.record.dispatchedAt
         && (d.record.status.Queued? ==> d'.record.status.Queued?))
        || (l.Mark? && d.record.status.Queued? && d'.record.status.Dispatched?))
    && (d.record.status.Dispatched? && d'.record.status.Complete? ==> l.CommitFinalize?)
    && (d.record.status.Complete? ==> d' == d)
  }

  ghost predicate FreshDir(s: State, d: JobDir) {
    && d.record.uid == s.nextUid && d.record.status.PendingUpload? && d.files == map[]
    && d.record.gpuAttempts == 0
  }

  ghost predicate RecordsEvolve(s: State, s': State, l: Label) {
    && s.nextUid <= s'.nextUid
    && forall id <- s'.dirs ::
         if id in s.dirs then DirEvolves(s.dirs[id], s'.dirs[id], l)
         else FreshDir(s, s'.dirs[id]) && s'.nextUid > s.nextUid
  }

  lemma CreateEvolves(s: State, request: CreateRequest)
    ensures RecordsEvolve(s, CreateJobRecord(s, request), Create(request))
  {
  }

  lemma UploadEvolves(cfg: Config, s: State, id: JobId, artifact: Option<Artifact>, data: Data)
    ensures RecordsEvolve(s, ReceiveArtifact(cfg, s, id, artifact, data), Upload(id, artifact, data))
  {
    UploadTouchesPending(cfg, s, id, artifact, data);
  }

  lemma CompleteEvolves(s: State, id: JobId, now: int)
    requires Identities(s)
    ensures RecordsEvolve(s, CompleteJob(s, id, now), CommitFinalize)
  {
  }

  lemma MarkEvolves(cfg: Config, s: State)
    requires Identities(s) && s.pc.Marking? && HasStatus(s, s.pc.job.id, Queued)
    ensures RecordsEvolve(s, Apply(cfg, s, Mark), Mark)
  {
  }

  lemma ProgressEvolves(s: State, s': State, id: JobId, l: Label)
    requires OnlyProgress(s, s', id) && s.dirs[id].record.status.Queued?
    requires IsProvisioning(l) && (!l.EndStart? ==> s'.dirs[id].record.gpuAttempts == s.dirs[id].record.gpuAttempts)
    ensures RecordsEvolve(s, s', l)
  {
  }

  lemma SameDirsEvolve(s: State, s': State, l: Label)
    requires s'.dirs == s.dirs && s'.nextUid == s.nextUid
    ensures RecordsEvolve(s, s', l)
  {
  }

  lemma RecordsEvolveInStep(cfg: Config, s: State, l: Label)
    requires Structure(cfg, s)
    ensures RecordsEvolve(s, Apply(cfg, s, l), l)
  {
    if IsProvisioning(l) && s.pc.Provisioning? {
      ProvisionEvolves(cfg, s, l);
    } else if IsLocal(l) {
      LocalStepKeepsTables(cfg, s, l);
      SameDirsEvolve(s, Apply(cfg, s, l), l);
    } else {
      TableStepEvolves(cfg, s, l);
    }
  }

  lemma ProvisionEvolves(cfg: Config, s: State, l: Label)
    requires Structure(cfg, s) && IsProvisioning(l) && s.pc.Provisioning?
    ensures RecordsEvolve(s, Apply(cfg, s, l), l)
  {
    HeldIsQueued(cfg, s);
    ProvisionOnlyProgresses(cfg, s, l);
    if !l.EndStart? {
      OnlyStartsCount(cfg, s, l);
    }
    ProgressEvolves(s, Apply(cfg, s, l), s.pc.job.id, l);
  }

  lemma OnlyStartsCount(cfg: Config, s: State, l: Label)
    requires s.pc.Provisioning? && IsProvisioning(l) && !l.EndStart?
    requires s.pc.job.id in s.dirs && s.dirs[s.pc.job.id].record == s.pc.job
    ensures
      var dirs' := Apply(cfg, s, l).dirs;
      s.pc.job.id in dirs' && dirs'[s.pc.job.id].record.gpuAttempts == s.pc.job.gpuAttempts
  {
  }

  lemma TableStepEvolves(cfg: Config, s: State, l: Label)
    requires Structure(cfg, s) && !IsLocal(l) && (IsProvisioning(l) ==> !s.pc.Provisioning?)
    ensures RecordsEvolve(s, Apply(cfg, s, l), l)
  {
    match l
    case Create(request) => CreateEvolves(s, request);
    case Upload(id, artifact, data) => UploadEvolves(cfg, s, id, artifact, data);
    case Delete(id) => DeleteEvolves(cfg, s, id);
    case CommitFinalize => CommitEvolves(cfg, s);
    case Mark => MarkStepEvolves(cfg, s);
    case _ =>
      OtherStepsKeepTables(cfg, s, l);
      SameDirsEvolve(s, Apply(cfg, s, l), l);
  }

  lemma DeleteEvolves(cfg: Config, s: State, id: JobId)
    ensures RecordsEvolve(s, Apply(cfg, s, Delete(id)), Delete(id))
  {
  }

  lemma CommitEvolves(cfg: Config, s: State)
    requires Identities(s)
    ensures RecordsEvolve(s, Apply(cfg, s, CommitFinalize), CommitFinalize)
  {
    if s.pc.TeeGone? && s.pc.todo != [] {
      CompleteEvolves(s, s.pc.todo[0].id, s.pc.now);
    } else {
      SameDirsEvolve(s, Apply(cfg, s, CommitFinalize), CommitFinalize);
    }
  }

  lemma MarkStepEvolves(cfg: Config, s: State)
    requires Structure(cfg, s)
    ensures RecordsEvolve(s, Apply(cfg, s, Mark), Mark)
  {
    if s.pc.Marking? {
      HeldIsQueued(cfg, s);
      MarkEvolves(cfg, s);
    } else {
      SameDirsEvolve(s, Apply(cfg, s, Mark), Mark);
    }
  }

  /** The job to be marked or provisioned is queued on disk. */
  lemma HeldIsQueued(cfg: Config, s: State)
    requires Structure(cfg, s) && (s.pc.Marking? || s.pc.Sending? || s.pc.Provisioning?)
    ensures Identities(s) && s.pc.job.id in s.dirs && s.dirs[s.pc.job.id].record == s.pc.job && s.pc.job.status.Queued?
  {
    assert s.queue[0] in s.queue;
  }

  lemma OtherStepsKeepTables(cfg: Config, s: State, l: Label)
    requires l.BeginFinalize? || l.Pick? || l.Recheck? || (IsProvisioning(l) && !s.pc.Provisioning?)
    ensures Apply(cfg, s, l).dirs == s.dirs && Apply(cfg, s, l).nextUid == s.nextUid
  {
  }

  /** Each part of the history is written by one kind of step only, and time does not run back. */
  lemma LogsInStep(cfg: Config, s: State, l: Label)
    ensures
      var s' := Apply(cfg, s, l);
      && (!l.Create? ==> s'.log.creates == s.log.creates && s'.nextUid == s.nextUid)
      && (!l.Upload? ==> s'.log.uploads == s.log.uploads)
      && (!l.EndStart? ==>
            s'.log.starts == s.log.starts && s'.lastStart == s.lastStart && s'.lastAnyStart == s.lastAnyStart)
      && (!l.Recheck? ==> s'.log.payloads == s.log.payloads)
      && (!l.Send? ==> s'.log.sends == s.log.sends)
      && (!l.Delete? ==> s'.log.deletions == s.log.deletions)
      && s.clock <= s'.clock
  {
    if IsProvisioning(l) {
      ProvisionLogs(cfg, s, l);
    } else if IsLocal(l) {
      LocalStepKeepsTables(cfg, s, l);
      LocalStepKeepsStamps(cfg, s, l);
    } else {
      TableStepLogs(cfg, s, l);
    }
  }

  lemma ProvisionLogs(cfg: Config, s: State, l: Label)
    requires IsProvisioning(l)
    ensures
      var s' := Apply(cfg, s, l);
      && s'.clock == s.clock && s'.nextUid == s.nextUid && s'.log == s.log.(starts := s'.log.starts)
      && (!l.EndStart? ==>
            s'.log.starts == s.log.starts && s'.lastStart == s.lastStart && s'.lastAnyStart == s.lastAnyStart)
  {
    if s.pc.Provisioning? {
      ProvisionCallLogs(cfg, s, s.pc.job, s.pc.phase, s.pc.startsThisCall, l);
    }
  }

  lemma ProvisionCallLogs(cfg: Config, s: State, job: Job, phase: Phase, n: nat, l: Label)
    ensures
      var s' := Provision(cfg, s, job, phase, n, l);
      && s'.clock == s.clock && s'.nextUid == s.nextUid && s'.log == s.log.(starts := s'.log.starts)
      && (!l.EndStart? ==>
            s'.log.starts == s.log.starts && s'.lastStart == s.lastStart && s'.lastAnyStart == s.lastAnyStart)
  {
  }

  lemma LocalStepKeepsStamps(cfg: Config, s: State, l: Label)
    requires IsLocal(l)
    ensures
      var s' := Apply(cfg, s, l);
      && s'.lastStart == s.lastStart && s'.lastAnyStart == s.lastAnyStart && s.clock <= s'.clock
      && (!l.Send? ==> s'.log.sends == s.log.sends)
  {
  }

  lemma TableStepLogs(cfg: Config, s: State, l: Label)
    requires !IsProvisioning(l) && !IsLocal(l)
    ensures
      var s' := Apply(cfg, s, l);
      && (!l.Create? ==> s'.log.creates == s.log.creates && s'.nextUid == s.nextUid)
      && (!l.Upload? ==> s'.log.uploads == s.log.uploads)
      && s'.log.starts == s.log.starts && s'.lastStart == s.lastStart && s'.lastAnyStart == s.lastAnyStart
      && (!l.Recheck? ==> s'.log.payloads == s.log.payloads)
      && s'.log.sends == s.log.sends
      && (!l.Delete? ==> s'.log.deletions == s.log.deletions)
      && s.clock == s'.clock
  {
  }

  // ---------------------------------------------------------------- uploads

  /** The latest upload of an artifact that reached the disk. */
  function LastUpload(uploads: seq<UploadRecord>, uid: nat, a: Artifact): Option<UploadRecord> {
    if uploads == [] then None
    else
      var u := uploads[|uploads| - 1];
      if u.uid == uid && u.artifact == a then Some(u) else LastUpload(uploads[..|uploads| - 1], uid, a)
  }

  lemma {:induction false} NoUpload(uploads: seq<UploadRecord>, uid: nat, a: Artifact)
    requires forall u <- uploads :: u.uid < uid
    ensures LastUpload(uploads, uid, a) == None
  {
    if uploads != [] {
      NoUpload(uploads[..|uploads| - 1], uid, a);
    }
  }

  /** A file is there exactly if it was uploaded, with the bytes of the latest upload, which was
      accepted exactly if those bytes pass the hash check. */
  ghost predicate FileLogged(cfg: Config, dir: JobDir, uploads: seq<UploadRecord>, a: Artifact) {
    match LastUpload(uploads, dir.record.uid, a)
    case None => a !in dir.files
    case Some(u) =>
      a in dir.files && dir.files[a] == u.data && u.accepted == Accepts(cfg, dir.record.commitments, a, u.data)
  }

  ghost predicate UploadsKept(cfg: Config, s: State) {
    && (forall u <- s.log.uploads :: u.uid < s.nextUid)
    && (forall id <- s.dirs, a: Artifact :: FileLogged(cfg, s.dirs[id], s.log.uploads, a))
  }

  lemma UploadsKeptInStep(cfg: Config, s: State, l: Label)
    requires Structure(cfg, s) && UploadsKept(cfg, s)
    ensures UploadsKept(cfg, Apply(cfg, s, l))
  {
    if l.Upload? {
      UploadIsLogged(cfg, s, l.id, l.artifact, l.data);
    } else {
      var s' := Apply(cfg, s, l);
      RecordsEvolveInStep(cfg, s, l);
      LogsInStep(cfg, s, l);
      forall id <- s'.dirs, a: Artifact
        ensures FileLogged(cfg, s'.dirs[id], s'.log.uploads, a)
      {
        if id in s.dirs {
          assert FileLogged(cfg, s.dirs[id], s.log.uploads, a);
        } else {
          NoUpload(s.log.uploads, s.nextUid, a);
        }
      }
    }
  }

  lemma UploadIsLogged(cfg: Config, s: State, id: JobId, artifact: Option<Artifact>, data: Data)
    requires Structure(cfg, s) && UploadsKept(cfg, s)
    ensures UploadsKept(cfg, ReceiveArtifact(cfg, s, id, artifact, data))
  {
    UploadTouchesPending(cfg, s, id, artifact, data);
    UploadLogsFile(cfg, s, ReceiveArtifact(cfg, s, id, artifact, data), id, artifact, data);
  }

  lemma UploadLogsFile(cfg: Config, s: State, s': State, id: JobId, artifact: Option<Artifact>, data: Data)
    requires UploadsKept(cfg, s) && Identities(s) && s'.nextUid == s.nextUid
    requires
      if s'.log.uploads == s.log.uploads then s'.dirs == s.dirs
      else
        && id in s.dirs && id in s'.dirs && artifact.Some?
        && s'.dirs == s.dirs[id := s'.dirs[id]]
        && s'.dirs[id].files == s.dirs[id].files[artifact.value := data]
        && s'.dirs[id].record.uid == s.dirs[id].record.uid
        && s'.dirs[id].record.commitments == s.dirs[id].record.commitments
        && s'.log.uploads == s.log.uploads + [UploadRecord(s.dirs[id].record.uid, artifact.value, data,
             Accepts(cfg, s.dirs[id].record.commitments, artifact.value, data))]
    ensures UploadsKept(cfg, s')
  {
    if s'.log.uploads != s.log.uploads {
      var u := s'.log.uploads[|s.log.uploads|];
      forall other <- s'.dirs, a: Artifact
        ensures FileLogged(cfg, s'.dirs[other], s'.log.uploads, a)
      {
        AppendedFileLogged(cfg, s.dirs[other], s'.dirs[other], s.log.uploads, u, a);
      }
    }
  }

  lemma AppendedFileLogged(
    cfg: Config, dir: JobDir, dir': JobDir, uploads: seq<UploadRecord>, u: UploadRecord, a: Artifact)
    requires FileLogged(cfg, dir, uploads, a)
    requires dir'.record.uid == dir.record.uid && dir'.record.commitments == dir.record.commitments
    requires
      if u.uid == dir.record.uid && u.artifact == a then
        a in dir'.files && dir'.files[a] == u.data && u.accepted == Accepts(cfg, dir.record.commitments, a, u.data)
      else
        (a in dir'.files <==> a in dir.files) && (a in dir.files ==> dir'.files[a] == dir.files[a])
    ensures FileLogged(cfg, dir', uploads + [u], a)
  {
    assert (uploads + [u])[..|uploads|] == uploads;
  }

  // ---------------------------------------------------------------- payloads

  ghost predicate FrozenAs(cfg: Config, dir: JobDir, payload: Payload) {
    !dir.record.status.PendingUpload? && AllRequired(dir) && BuildPayload(cfg, dir) == payload
  }

  /** Whatever payload was once built for a job is the one its directory still gives. */
  ghost predicate PayloadsKept(cfg: Config, s: State) {
    && (forall e <- s.log.payloads :: e.uid < s.nextUid)
    && (forall e <- s.log.payloads, id <- s.dirs :: s.dirs[id].record.uid == e.uid ==>
          FrozenAs(cfg, s.dirs[id], e.payload))
    && (forall e <- s.log.payloads, f <- s.log.payloads :: e.uid == f.uid ==> e.payload == f.payload)
  }

  lemma PayloadsKeptInStep(cfg: Config, s: State, l: Label)
    requires Structure(cfg, s) && PayloadsKept(cfg, s)
    ensures PayloadsKept(cfg, Apply(cfg, s, l))
  {
    if l.Recheck? {
      if s.pc.Rechecking? {
        RecheckBuildsFrozen(cfg, s);
      }
    } else {
      RecordsEvolveInStep(cfg, s, l);
      LogsInStep(cfg, s, l);
      EvolvingDirsStayFrozen(cfg, s, Apply(cfg, s, l), l);
    }
  }

  lemma EvolvingDirsStayFrozen(cfg: Config, s: State, s': State, l: Label)
    requires PayloadsKept(cfg, s) && RecordsEvolve(s, s', l) && s'.log.payloads == s.log.payloads
    ensures PayloadsKept(cfg, s')
  {
    forall e <- s'.log.payloads, id <- s'.dirs | s'.dirs[id].record.uid == e.uid
      ensures FrozenAs(cfg, s'.dirs[id], e.payload)
    {
      assert id in s.dirs && FrozenAs(cfg, s.dirs[id], e.payload);
    }
  }

  /** The recheck always finds the picked job and builds its payload. */
  lemma RecheckLogs(cfg: Config, s: State)
    requires Structure(cfg, s) && s.pc.Rechecking?
    ensures
      var s' := Apply(cfg, s, Recheck);
      && s'.pc.Sending? && s'.dirs == s.dirs && s'.nextUid == s.nextUid
      && s.pc.job.id in s.dirs && FrozenAs(cfg, s.dirs[s.pc.job.id], s'.pc.payload)
      && s'.pc.job == s.pc.job == s.dirs[s.pc.job.id].record
      && s'.log.payloads == s.log.payloads + [PayloadRecord(s'.pc.job.uid, s'.pc.payload)]
  {
    NextIsHead(s);
    assert s.queue[0] in s.queue;
  }

  lemma RecheckBuildsFrozen(cfg: Config, s: State)
    requires Structure(cfg, s) && PayloadsKept(cfg, s) && s.pc.Rechecking?
    ensures PayloadsKept(cfg, Apply(cfg, s, Recheck))
  {
    RecheckLogs(cfg, s);
    NewPayloadIsFrozen(cfg, s, Apply(cfg, s, Recheck));
  }

  lemma NewPayloadIsFrozen(cfg: Config, s: State, s': State)
    requires Identities(s) && PayloadsKept(cfg, s) && s'.dirs == s.dirs && s'.nextUid == s.nextUid
    requires s'.pc.Sending? && s'.pc.job.id in s.dirs && s.dirs[s'.pc.job.id].record == s'.pc.job
    requires FrozenAs(cfg, s.dirs[s'.pc.job.id], s'.pc.payload)
    requires s'.log.payloads == s.log.payloads + [PayloadRecord(s'.pc.job.uid, s'.pc.payload)]
    ensures PayloadsKept(cfg, s')
  {
  }

  // ---------------------------------------------------------------- sends

  /** The send to a job incarnation that the dispatch program reported as done. */
  function SentTo(sends: seq<SendRecord>, uid: nat): Option<SendRecord> {
    if sends == [] then None
    else if sends[|sends| - 1].uid == uid then Some(sends[|sends| - 1])
    else SentTo(sends[..|sends| - 1], uid)
  }

  lemma {:induction false} SentToNone(sends: seq<SendRecord>, uid: nat)
    ensures SentTo(sends, uid) == None <==> forall r <- sends :: r.uid != uid
    ensures SentTo(sends, uid).Some? ==> SentTo(sends, uid).value in sends
  {
    if sends != [] {
      SentToNone(sends[..|sends| - 1], uid);
      assert sends == sends[..|sends| - 1] + [sends[|sends| - 1]];
    }
  }

  /** Exactly the dispatched and complete jobs, and the one about to be marked, have been sent,
      to the address on their record. */
  ghost predicate SendMatches(s: State, job: Job) {
    var sent := SentTo(s.log.sends, job.uid);
    if job.status.Dispatched? || job.status.Complete? then sent.Some? && sent.value.choice.addr == job.assignedTee
    else sent.Some? <==> s.pc.Marking? && s.pc.job.uid == job.uid
  }

  ghost predicate SendsKept(s: State) {
    && (forall r <- s.log.sends :: r.uid < s.nextUid)
    && (forall id <- s.dirs :: SendMatches(s, s.dirs[id].record))
    && (forall i, j :: 0 <= i < j < |s.log.sends| ==> s.log.sends[i].uid != s.log.sends[j].uid)
    && (s.pc.Marking? ==>
          SentTo(s.log.sends, s.pc.job.uid)
          == Some(SendRecord(s.pc.job.uid, s.pc.choice, s.pc.job.gpuAttempts, s.pc.payload)))
    && (s.pc.Sending? || s.pc.Marking? ==> PayloadRecord(s.pc.job.uid, s.pc.payload) in s.log.payloads)
    && (forall r <- s.log.sends :: PayloadRecord(r.uid, r.payload) in s.log.payloads)
  }

  /** The program counter enters Sending by a recheck and Marking by a send, and leaves Marking only
      by marking. */
  lemma PcInStep(cfg: Config, s: State, l: Label)
    ensures
      var s' := Apply(cfg, s, l);
      && (!l.Recheck? && s'.pc.Sending? ==> s'.pc == s.pc)
      && (!l.Send? && s'.pc.Marking? ==> s'.pc == s.pc)
      && (!l.Mark? && s.pc.Marking? ==> s'.pc == s.pc)
  {
  }

  lemma SendsKeptInStep(cfg: Config, s: State, l: Label)
    requires Structure(cfg, s) && SendsKept(s)
    ensures SendsKept(Apply(cfg, s, l))
  {
    if l.Send? {
      SendStepKeepsSends(cfg, s, l.ok);
    } else if l.Mark? {
      if s.pc.Marking? {
        MarkMatchesSend(cfg, s);
      }
    } else {
      OtherStepKeepsSends(cfg, s, l);
    }
  }

  lemma SendStepKeepsSends(cfg: Config, s: State, ok: bool)
    requires Structure(cfg, s) && SendsKept(s)
    ensures SendsKept(Apply(cfg, s, Send(ok)))
  {
    if s.pc.Sending? && ok && s.pc.choice.digest != "" {
      SendIsNew(cfg, s);
    }
  }

  lemma OtherStepKeepsSends(cfg: Config, s: State, l: Label)
    requires Structure(cfg, s) && SendsKept(s) && !l.Send? && !l.Mark?
    ensures SendsKept(Apply(cfg, s, l))
  {
    RecordsEvolveInStep(cfg, s, l);
    LogsInStep(cfg, s, l);
    PcInStep(cfg, s, l);
    if l.Recheck? && s.pc.Rechecking? {
      RecheckLogs(cfg, s);
    }
    SameSendsKept(s, Apply(cfg, s, l), l);
  }

  lemma SameSendsKept(s: State, s': State, l: Label)
    requires SendsKept(s) && RecordsEvolve(s, s', l) && !l.Send? && !l.Mark? && s'.log.sends == s.log.sends
    requires s'.pc.Marking? <==> s.pc.Marking?
    requires s.pc.Marking? ==> s'.pc == s.pc
    requires l.Recheck? || s'.log.payloads == s.log.payloads
    requires !l.Recheck? && s'.pc.Sending? ==> s'.pc == s.pc
    requires l.Recheck? && s'.pc.Sending? ==>
      s'.log.payloads == s.log.payloads + [PayloadRecord(s'.pc.job.uid, s'.pc.payload)]
      || (s'.pc == s.pc && s'.log.payloads == s.log.payloads)
    requires s.log.payloads <= s'.log.payloads
    ensures SendsKept(s')
  {
    SameSendsMatch(s, s', l);
  }

  lemma SameSendsMatch(s: State, s': State, l: Label)
    requires SendsKept(s) && RecordsEvolve(s, s', l) && !l.Send? && !l.Mark? && s'.log.sends == s.log.sends
    requires s'.pc.Marking? <==> s.pc.Marking?
    requires s.pc.Marking? ==> s'.pc == s.pc
    ensures forall id <- s'.dirs :: SendMatches(s', s'.dirs[id].record)
  {
    SentToNone(s.log.sends, s.nextUid);
    forall id <- s'.dirs ensures SendMatches(s', s'.dirs[id].record) {
      if id in s.dirs {
        assert SendMatches(s, s.dirs[id].record) && DirEvolves(s.dirs[id], s'.dirs[id], l);
      } else {
        assert FreshDir(s, s'.dirs[id]);
      }
    }
  }

  /** A send goes to an incarnation never sent to, and the record is about to be marked. */
  lemma SendIsNew(cfg: Config, s: State)
    requires Structure(cfg, s) && SendsKept(s) && s.pc.Sending?
    ensures SendsKept(RecordSend(s, s.pc.job, s.pc.payload, s.pc.choice))
  {
    HeldIsQueued(cfg, s);
    NewSendKeeps(s, RecordSend(s, s.pc.job, s.pc.payload, s.pc.choice),
                 SendRecord(s.pc.job.uid, s.pc.choice, s.pc.job.gpuAttempts, s.pc.payload));
  }

  lemma NewSendKeeps(s: State, s': State, r: SendRecord)
    requires Identities(s) && SendsKept(s) && s.pc.Sending?
    requires s.pc.job.id in s.dirs && s.dirs[s.pc.job.id].record == s.pc.job && s.pc.job.status.Queued?
    requires r == SendRecord(s.pc.job.uid, s.pc.choice, s.pc.job.gpuAttempts, s.pc.payload)
    requires s'.dirs == s.dirs && s'.nextUid == s.nextUid && s'.pc == Marking(s.pc.job, s.pc.payload, s.pc.choice)
    requires s'.log.sends == s.log.sends + [r] && s'.log.payloads == s.log.payloads
    ensures SendsKept(s')
  {
    assert SendMatches(s, s.dirs[s.pc.job.id].record);
    SentToNone(s.log.sends, r.uid);
    SentAppended(s.log.sends, r);
    SendMatchesAfter(s, s', r);
  }

  lemma SentAppended(sends: seq<SendRecord>, r: SendRecord)
    ensures SentTo(sends + [r], r.uid) == Some(r)
    ensures forall uid :: uid != r.uid ==> SentTo(sends + [r], uid) == SentTo(sends, uid)
  {
    assert (sends + [r])[..|sends|] == sends;
  }

  lemma SendMatchesAfter(s: State, s': State, r: SendRecord)
    requires Identities(s) && s.pc.Sending? && s'.dirs == s.dirs && s'.log.sends == s.log.sends + [r]
    requires s'.pc.Marking? && s'.pc.job == s.pc.job && r.uid == s.pc.job.uid
    requires s.pc.job.id in s.dirs && s.dirs[s.pc.job.id].record == s.pc.job && s.pc.job.status.Queued?
    requires forall id <- s.dirs :: SendMatches(s, s.dirs[id].record)
    ensures forall id <- s'.dirs :: SendMatches(s', s'.dirs[id].record)
  {
    SentAppended(s.log.sends, r);
    forall id <- s'.dirs ensures SendMatches(s', s'.dirs[id].record) {
      assert SendMatches(s, s.dirs[id].record);
    }
  }

  lemma MarkMatchesSend(cfg: Config, s: State)
    requires Structure(cfg, s) && SendsKept(s) && s.pc.Marking?
    ensures SendsKept(Apply(cfg, s, Mark))
  {
    HeldIsQueued(cfg, s);
    MarkMatches(s, Apply(cfg, s, Mark), s.pc.job.id);
  }

  lemma MarkMatches(s: State, s': State, id: JobId)
    requires Identities(s) && SendsKept(s) && s.pc.Marking? && s'.pc.Idle? && id in s.dirs && id in s'.dirs
    requires s.pc.job == s.dirs[id].record && s'.nextUid == s.nextUid
    requires s'.dirs == s.dirs[id := s'.dirs[id]] && s'.dirs[id].record.uid == s.pc.job.uid
    requires s'.dirs[id].record.status.Dispatched? && s'.dirs[id].record.assignedTee == s.pc.choice.addr
    requires s'.log.sends == s.log.sends && s'.log.payloads == s.log.payloads
    ensures SendsKept(s')
  {
    forall k <- s'.dirs ensures SendMatches(s', s'.dirs[k].record) {
      assert SendMatches(s, s.dirs[k].record);
    }
  }

  // ---------------------------------------------------------------- times

  ghost predicate CompletedInTime(cfg: Config, job: Job) {
    job.completedAt == Some(job.updatedAt) && job.updatedAt - job.dispatchedAt >= cfg.grace
  }

  ghost predicate TimesKept(cfg: Config, s: State) {
    && (forall id <- s.dirs ::
          && !s.dirs[id].record.status.Rejected?
          && (s.dirs[id].record.status.Complete? ==> CompletedInTime(cfg, s.dirs[id].record)))
    && (forall d <- s.log.deletions ::
          && d.record.status.Complete? && CompletedInTime(cfg, d.record)
          && d.at - d.record.updatedAt as real >= cfg.retention as real)
  }

  lemma TimesKeptInStep(cfg: Config, s: State, l: Label)
    requires Structure(cfg, s) && TimesKept(cfg, s)
    ensures TimesKept(cfg, Apply(cfg, s, l))
  {
    if l.Delete? {
      DeletionInTime(cfg, s, l.id);
    } else if l.CommitFinalize? {
      CompletionInTime(cfg, s);
    } else {
      RecordsEvolveInStep(cfg, s, l);
      LogsInStep(cfg, s, l);
      TimesKeptOtherwise(cfg, s, Apply(cfg, s, l), l);
    }
  }

  lemma TimesKeptOtherwise(cfg: Config, s: State, s': State, l: Label)
    requires TimesKept(cfg, s) && RecordsEvolve(s, s', l) && !l.CommitFinalize? && s'.log.deletions == s.log.deletions
    ensures TimesKept(cfg, s')
  {
    forall id <- s'.dirs
      ensures !s'.dirs[id].record.status.Rejected?
      ensures s'.dirs[id].record.status.Complete? ==> CompletedInTime(cfg, s'.dirs[id].record)
    {
      assert if id in s.dirs then DirEvolves(s.dirs[id], s'.dirs[id], l) else FreshDir(s, s'.dirs[id]);
    }
  }

  lemma DeletionInTime(cfg: Config, s: State, id: JobId)
    requires Structure(cfg, s) && TimesKept(cfg, s)
    ensures TimesKept(cfg, Apply(cfg, s, Delete(id)))
  {
  }

  lemma CompletionInTime(cfg: Config, s: State)
    requires Structure(cfg, s) && TimesKept(cfg, s)
    ensures TimesKept(cfg, Apply(cfg, s, CommitFinalize))
  {
  }
}
