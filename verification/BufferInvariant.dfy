/** What every step of the job machine keeps. */
module BufferInvariant {
  import opened Wrappers
  import opened Bytes
  import opened BufferModel

  // ---------------------------------------------------------------- queue and records

  ghost predicate Identities(s: State) {
    && (forall id <- s.dirs :: s.dirs[id].record.id == id && s.dirs[id].record.uid < s.nextUid)
    && (forall a, b :: a in s.dirs && b in s.dirs && s.dirs[a].record.uid == s.dirs[b].record.uid ==> a == b)
  }

  /** The queue lists the queued jobs, each once, and nothing enqueued is lost or reordered. */
  ghost predicate QueueKept(s: State) {
    && NoDuplicates(s.queue)
    && (forall id <- s.queue :: id in s.dirs && s.dirs[id].record.status.Queued?)
    && (forall id <- s.dirs :: s.dirs[id].record.status.Queued? ==> id in s.queue)
    && s.log.enqueued == s.log.marked + s.queue
  }

  /** Jobs complete in the order they were marked, and the one marked but not complete is the
      one dispatched. */
  ghost predicate InFlightKept(s: State) {
    var m, c := s.log.marked, s.log.completed;
    && |c| <= |m| <= |c| + 1
    && c == m[..|c|]
    && (|m| > |c| ==> m[|c|] in s.dirs && s.dirs[m[|c|]].record.status.Dispatched?)
    && (forall id <- s.dirs :: s.dirs[id].record.status.Dispatched? ==> |m| > |c| && id == m[|c|])
  }

  /** The scheduler's copy of the picked job is what is on disk, at the head of the queue. */
  ghost predicate Holds(s: State, job: Job) {
    && s.queue != [] && s.queue[0] == job.id
    && job.id in s.dirs && s.dirs[job.id].record == job
    && |s.log.marked| == |s.log.completed|
  }

  ghost predicate HoldsPayload(cfg: Config, s: State, job: Job, payload: Payload) {
    Holds(s, job) && AllRequired(s.dirs[job.id]) && payload == BuildPayload(cfg, s.dirs[job.id])
  }

  /** The snapshot of dispatched jobs is still accurate. */
  ghost predicate SnapshotKept(s: State, now: int, todo: seq<Job>) {
    && now as real <= s.clock
    && |todo| <= 1
    && (todo != [] ==>
          todo[0].id in s.dirs && s.dirs[todo[0].id].record == todo[0] && todo[0].status.Dispatched?)
  }

  ghost predicate LocalsKept(cfg: Config, s: State) {
    match s.pc
    case Idle => true
    case Cleaning(startedAt) => startedAt <= s.clock
    case Cleaned => true
    case Finalizing(now, todo) => SnapshotKept(s, now, todo)
    case TeeGone(now, todo) => SnapshotKept(s, now, todo) && (todo != [] ==> now - todo[0].dispatchedAt >= cfg.grace)
    case Picking => true
    case Provisioning(job, _, _) => Holds(s, job)
    case Rechecking(job, _) => Holds(s, job)
    case Sending(job, payload, _) => HoldsPayload(cfg, s, job, payload)
    case Marking(job, payload, _) => HoldsPayload(cfg, s, job, payload)
  }

  ghost predicate FilesKept(s: State) {
    forall id <- s.dirs :: !s.dirs[id].record.status.PendingUpload? ==> AllRequired(s.dirs[id])
  }

  ghost predicate Structure(cfg: Config, s: State) {
    Identities(s) && QueueKept(s) && InFlightKept(s) && LocalsKept(cfg, s) && FilesKept(s)
  }

  // ---------------------------------------------------------------- helpers about the queue

  lemma {:induction false} WithoutAbsent(ids: seq<JobId>, id: JobId)
    requires id !in ids
    ensures Without(ids, id) == ids
  {
    if ids != [] {
      WithoutAbsent(ids[1..], id);
    }
  }

  /** An occurrence of the id drops out, and what stands around it stays in order. */
  lemma {:induction false} WithoutSplit(before: seq<JobId>, id: JobId, after: seq<JobId>)
    requires id !in before
    ensures Without(before + [id] + after, id) == before + Without(after, id)
    decreases |before|
  {
    var ids := before + [id] + after;
    if before == [] {
      assert ids == [id] + after;
    } else {
      WithoutSplit(before[1..], id, after);
      assert ids[1..] == before[1..] + [id] + after;
      assert before == [before[0]] + before[1..];
    }
  }

  /** Removing the head of a duplicate-free queue removes just that entry. */
  lemma WithoutHead(ids: seq<JobId>)
    requires ids != [] && NoDuplicates(ids)
    ensures Without(ids, ids[0]) == ids[1..]
  {
    WithoutAbsent(ids[1..], ids[0]);
  }

  lemma NextIsHead(s: State)
    requires QueueKept(s)
    ensures s.queue == [] ==> NextQueued(s) == None
    ensures s.queue != [] ==> s.queue[0] in s.dirs && NextQueued(s) == Some(s.dirs[s.queue[0]].record)
  {
    if s.queue != [] {
      assert s.queue[0] in s.queue;
    }
  }

  // ---------------------------------------------------------------- steps

  lemma CreateKeepsStructure(cfg: Config, s: State, request: CreateRequest)
    requires Structure(cfg, s)
    ensures Structure(cfg, CreateJobRecord(s, request))
  {
    CreateKeepsTables(s, request);
    CreateKeepsLocals(cfg, s, request);
  }

  lemma CreateKeepsTables(s: State, request: CreateRequest)
    requires Identities(s) && QueueKept(s) && InFlightKept(s) && FilesKept(s)
    ensures
      var s' := CreateJobRecord(s, request);
      Identities(s') && QueueKept(s') && InFlightKept(s') && FilesKept(s')
  {
    CreateKeepsQueue(s, request);
  }

  lemma CreateKeepsQueue(s: State, request: CreateRequest)
    requires QueueKept(s)
    ensures QueueKept(CreateJobRecord(s, request))
  {
  }

  lemma CreateKeepsLocals(cfg: Config, s: State, request: CreateRequest)
    requires LocalsKept(cfg, s)
    ensures LocalsKept(cfg, CreateJobRecord(s, request))
  {
  }

  lemma UploadKeepsStructure(cfg: Config, s: State, id: JobId, artifact: Option<Artifact>, data: Data)
    requires Structure(cfg, s)
    ensures Structure(cfg, ReceiveArtifact(cfg, s, id, artifact, data))
  {
    UploadKeepsQueue(cfg, s, id, artifact, data);
    UploadKeepsRecords(cfg, s, id, artifact, data);
    UploadKeepsLocals(cfg, s, id, artifact, data);
  }

  lemma UploadKeepsQueue(cfg: Config, s: State, id: JobId, artifact: Option<Artifact>, data: Data)
    requires Structure(cfg, s)
    ensures QueueKept(ReceiveArtifact(cfg, s, id, artifact, data))
  {
    UploadQueues(cfg, s, id, artifact, data);
    UploadTouchesPending(cfg, s, id, artifact, data);
    assert id in s.queue ==> id in s.dirs && s.dirs[id].record.status.Queued?;
    AppendKeepsQueue(s, ReceiveArtifact(cfg, s, id, artifact, data), id);
  }

  /** A job is appended to the queue exactly if this upload queues it. */
  lemma UploadQueues(cfg: Config, s: State, id: JobId, artifact: Option<Artifact>, data: Data)
    ensures
      var s' := ReceiveArtifact(cfg, s, id, artifact, data);
      if id in s.dirs && s.dirs[id].record.status.PendingUpload? && s'.dirs[id].record.status.Queued? then
        s'.queue == s.queue + [id] && s'.log.enqueued == s.log.enqueued + [id]
      else s'.queue == s.queue && s'.log.enqueued == s.log.enqueued
  {
  }

  lemma AppendKeepsQueue(s: State, s': State, id: JobId)
    requires QueueKept(s) && s'.log.marked == s.log.marked
    requires s'.dirs == s.dirs
      || (id in s.dirs && s.dirs[id].record.status.PendingUpload? && id in s'.dirs
          && s'.dirs == s.dirs[id := s'.dirs[id]])
    requires
      if id in s.dirs && s.dirs[id].record.status.PendingUpload?
         && id in s'.dirs && s'.dirs[id].record.status.Queued? then
        s'.queue == s.queue + [id] && s'.log.enqueued == s.log.enqueued + [id]
      else s'.queue == s.queue && s'.log.enqueued == s.log.enqueued
    ensures QueueKept(s')
  {
    assert s.log.marked + (s.queue + [id]) == (s.log.marked + s.queue) + [id];
  }

  lemma UploadKeepsRecords(cfg: Config, s: State, id: JobId, artifact: Option<Artifact>, data: Data)
    requires Structure(cfg, s)
    ensures
      var s' := ReceiveArtifact(cfg, s, id, artifact, data);
      Identities(s') && InFlightKept(s') && FilesKept(s')
  {
    UploadTouchesPending(cfg, s, id, artifact, data);
    var s' := ReceiveArtifact(cfg, s, id, artifact, data);
    if s'.dirs != s.dirs {
      PendingChangeKeepsRecords(s, s', id);
    }
  }

  lemma PendingChangeKeepsRecords(s: State, s': State, id: JobId)
    requires Identities(s) && InFlightKept(s) && FilesKept(s)
    requires s'.nextUid == s.nextUid && s'.log.marked == s.log.marked && s'.log.completed == s.log.completed
    requires id in s.dirs && s.dirs[id].record.status.PendingUpload? && id in s'.dirs
    requires s'.dirs == s.dirs[id := s'.dirs[id]]
    requires s'.dirs[id].record.id == id && s'.dirs[id].record.uid == s.dirs[id].record.uid
    requires s'.dirs[id].record.status.PendingUpload? || (s'.dirs[id].record.status.Queued? && AllRequired(s'.dirs[id]))
    ensures Identities(s') && InFlightKept(s') && FilesKept(s')
  {
  }

  lemma UploadKeepsLocals(cfg: Config, s: State, id: JobId, artifact: Option<Artifact>, data: Data)
    requires Structure(cfg, s)
    ensures LocalsKept(cfg, ReceiveArtifact(cfg, s, id, artifact, data))
  {
    UploadTouchesPending(cfg, s, id, artifact, data);
    var s' := ReceiveArtifact(cfg, s, id, artifact, data);
    if s.queue != [] {
      assert s'.queue[0] == s.queue[0] && s.queue[0] in s.queue;
      assert s'.dirs[s.queue[0]] == s.dirs[s.queue[0]];
    }
  }

  /** An upload changes at most the directory of a job that was pending, and appends to the queue;
      whatever reaches the disk is logged. */
  lemma UploadTouchesPending(cfg: Config, s: State, id: JobId, artifact: Option<Artifact>, data: Data)
    ensures
      var s' := ReceiveArtifact(cfg, s, id, artifact, data);
      && s'.pc == s.pc && s'.clock == s.clock && s'.nextUid == s.nextUid
      && s'.log.marked == s.log.marked && s'.log.completed == s.log.completed
      && s.queue <= s'.queue && s'.dirs.Keys == s.dirs.Keys
      && (s'.dirs == s.dirs ||
           (id in s.dirs && s.dirs[id].record.status.PendingUpload?
            && s'.dirs == s.dirs[id := s'.dirs[id]]
            && s'.dirs[id].record == s.dirs[id].record.(
                 status := s'.dirs[id].record.status, updatedAt := s'.dirs[id].record.updatedAt)
            && (s'.dirs[id].record.status.PendingUpload?
                || (s'.dirs[id].record.status.Queued? && AllRequired(s'.dirs[id])))))
      && (if s'.log.uploads == s.log.uploads then s'.dirs == s.dirs
          else
            && id in s.dirs && artifact.Some?
            && s'.dirs == s.dirs[id := s'.dirs[id]]
            && s'.dirs[id].files == s.dirs[id].files[artifact.value := data]
            && s'.log.uploads == s.log.uploads + [UploadRecord(s.dirs[id].record.uid, artifact.value, data,
                 Accepts(cfg, s.dirs[id].record.commitments, artifact.value, data))])
  {
  }

  lemma DeleteKeepsStructure(cfg: Config, s: State, id: JobId)
    requires Structure(cfg, s) && s.pc.Cleaning? && Deletable(cfg, s, id, s.pc.startedAt)
    ensures Structure(cfg, DeleteJob(s, id))
  {
  }

  lemma CompleteKeepsStructure(cfg: Config, s: State)
    requires Structure(cfg, s) && s.pc.TeeGone? && s.pc.todo != []
    ensures Structure(cfg, Apply(cfg, s, CommitFinalize))
  {
    CompleteKeepsTables(s, s.pc.todo[0].id, s.pc.now);
    var s' := Apply(cfg, s, CommitFinalize);
    assert LocalsKept(cfg, s');
    var t := CompleteJob(s, s.pc.todo[0].id, s.pc.now);
    SameTablesKeep(t, s');
  }

  lemma CompleteKeepsTables(s: State, id: JobId, now: int)
    requires Identities(s) && QueueKept(s) && InFlightKept(s) && FilesKept(s)
    ensures
      var s' := CompleteJob(s, id, now);
      Identities(s') && QueueKept(s') && InFlightKept(s') && FilesKept(s')
  {
  }

  lemma SameTablesKeep(s: State, s': State)
    requires s'.dirs == s.dirs && s'.queue == s.queue && s'.nextUid == s.nextUid && s'.log == s.log
    requires Identities(s) && QueueKept(s) && InFlightKept(s) && FilesKept(s)
    ensures Identities(s') && QueueKept(s') && InFlightKept(s') && FilesKept(s')
  {
  }

  lemma MarkKeepsStructure(cfg: Config, s: State)
    requires Structure(cfg, s) && s.pc.Marking?
    ensures Structure(cfg, Apply(cfg, s, Mark))
  {
    MarkKeepsQueue(cfg, s);
    MarkKeepsRest(cfg, s);
  }

  lemma MarkKeepsQueue(cfg: Config, s: State)
    requires Structure(cfg, s) && s.pc.Marking?
    ensures QueueKept(Apply(cfg, s, Mark))
    ensures Apply(cfg, s, Mark).queue == s.queue[1..] && Apply(cfg, s, Mark).log.marked == s.log.marked + [s.queue[0]]
  {
    MarkHeadKeepsQueue(s, s.pc.choice.addr);
  }

  lemma MarkHeadKeepsQueue(s: State, addr: string)
    requires QueueKept(s) && s.queue != [] && s.queue[0] in s.dirs && s.dirs[s.queue[0]].record.id == s.queue[0]
    ensures
      var s' := MarkJobDispatched(s, s.queue[0], addr);
      QueueKept(s') && s'.queue == s.queue[1..] && s'.log.marked == s.log.marked + [s.queue[0]]
  {
    WithoutHead(s.queue);
    var s' := MarkJobDispatched(s, s.queue[0], addr);
    assert s.log.marked + s.queue == s'.log.marked + s'.queue;
    assert s.queue[0] !in s'.queue;
    assert forall id <- s'.dirs :: id != s.queue[0] ==> s'.dirs[id] == s.dirs[id];
  }

  lemma MarkKeepsRest(cfg: Config, s: State)
    requires Structure(cfg, s) && s.pc.Marking?
    ensures
      var s' := Apply(cfg, s, Mark);
      Identities(s') && InFlightKept(s') && LocalsKept(cfg, s') && FilesKept(s')
  {
    MarkKeepsRecords(s, s.pc.job.id, s.pc.choice.addr);
  }

  lemma MarkKeepsRecords(s: State, id: JobId, addr: string)
    requires Identities(s) && InFlightKept(s) && FilesKept(s)
    requires HasStatus(s, id, Queued) && |s.log.marked| == |s.log.completed| && AllRequired(s.dirs[id])
    ensures
      var s' := MarkJobDispatched(s, id, addr);
      Identities(s') && InFlightKept(s') && FilesKept(s')
  {
  }

  lemma RecheckKeepsStructure(cfg: Config, s: State)
    requires Structure(cfg, s) && s.pc.Rechecking?
    ensures Structure(cfg, Apply(cfg, s, Recheck)) && Apply(cfg, s, Recheck).pc.Sending?
  {
    NextIsHead(s);
  }

  lemma PickKeepsStructure(cfg: Config, s: State)
    requires Structure(cfg, s) && s.pc.Picking?
    ensures Structure(cfg, Apply(cfg, s, Pick))
  {
    NextIsHead(s);
  }

  lemma BeginFinalizeKeepsStructure(cfg: Config, s: State, order: seq<JobId>)
    requires Structure(cfg, s)
    ensures Structure(cfg, Apply(cfg, s, BeginFinalize(order)))
  {
    assert |order| >= 1 ==> order[0] in order;
    assert |order| >= 2 ==> order[1] in order;
  }

  /** The jobs table may differ only in the provisioning progress of one record. */
  ghost predicate OnlyProgress(s: State, s': State, id: JobId) {
    && id in s.dirs && id in s'.dirs
    && (var job, job' := s.dirs[id].record, s'.dirs[id].record;
        && job' == job.(gpuAttempts := job'.gpuAttempts, target := job'.target)
        && s'.dirs == s.dirs[id := s.dirs[id].(record := job')])
    && s'.queue == s.queue && s'.nextUid == s.nextUid && s'.clock == s.clock
    && s'.log == s.log.(starts := s'.log.starts)
  }

  /** The provisioning call has ended, or goes on with the record that is on disk. */
  ghost predicate GoesOn(s: State, id: JobId) {
    s.pc.Idle? || ((s.pc.Provisioning? || s.pc.Rechecking?) && id in s.dirs && s.pc.job == s.dirs[id].record)
  }

  /** A provisioning step writes back a record that differs only in its progress, and either ends
      the call or goes on with the record it wrote. */
  lemma ProvisionOnlyProgresses(cfg: Config, s: State, l: Label)
    requires IsProvisioning(l)
    requires s.pc.Provisioning? && s.pc.job.id in s.dirs && s.dirs[s.pc.job.id].record == s.pc.job
    ensures OnlyProgress(s, Apply(cfg, s, l), s.pc.job.id) && GoesOn(Apply(cfg, s, l), s.pc.job.id)
  {
    ProvisionSaves(cfg, s, s.pc.job, s.pc.phase, s.pc.startsThisCall, l);
  }

  /** What a provisioning step writes is the job with other progress, and what it goes on with. */
  lemma ProvisionSaves(cfg: Config, s: State, job: Job, phase: Phase, n: nat, l: Label)
    requires job.id in s.dirs && s.dirs[job.id].record == job && s.pc.Provisioning? && s.pc.job == job
    ensures
      var s' := Provision(cfg, s, job, phase, n, l);
      && job.id in s'.dirs
      && var job' := s'.dirs[job.id].record;
      && job' == job.(gpuAttempts := job'.gpuAttempts, target := job'.target)
      && s'.dirs == s.dirs[job.id := s.dirs[job.id].(record := job')]
      && s'.queue == s.queue && s'.nextUid == s.nextUid && s'.clock == s.clock
      && s'.log == s.log.(starts := s'.log.starts)
      && (s'.pc.Idle? || ((s'.pc.Provisioning? || s'.pc.Rechecking?) && s'.pc.job == job'))
  {
  }

  lemma ProgressKeepsStructure(cfg: Config, s: State, s': State)
    requires Structure(cfg, s) && s.pc.Provisioning? && OnlyProgress(s, s', s.pc.job.id)
    requires GoesOn(s', s.pc.job.id)
    ensures Structure(cfg, s')
  {
    ProgressKeepsTables(s, s', s.pc.job.id);
    ProgressKeepsFiles(s, s', s.pc.job.id);
  }

  lemma ProgressKeepsTables(s: State, s': State, id: JobId)
    requires Identities(s) && QueueKept(s) && InFlightKept(s) && OnlyProgress(s, s', id)
    ensures Identities(s') && QueueKept(s') && InFlightKept(s')
  {
  }

  lemma ProgressKeepsFiles(s: State, s': State, id: JobId)
    requires FilesKept(s) && OnlyProgress(s, s', id)
    ensures FilesKept(s')
  {
  }

  /** Steps that leave the tables alone need only look after the scheduler's locals. */
  lemma SameTablesKeepStructure(cfg: Config, s: State, s': State)
    requires Structure(cfg, s)
    requires s'.dirs == s.dirs && s'.queue == s.queue && s'.nextUid == s.nextUid
    requires s'.log.enqueued == s.log.enqueued && s'.log.marked == s.log.marked && s'.log.completed == s.log.completed
    requires LocalsKept(cfg, s')
    ensures Structure(cfg, s')
  {
  }

  lemma StructureStep(cfg: Config, s: State, l: Label)
    requires Structure(cfg, s)
    ensures Structure(cfg, Apply(cfg, s, l))
  {
    if IsProvisioning(l) {
      ProvisionKeepsStructure(cfg, s, l);
    } else if IsLocal(l) {
      LocalStepKeepsStructure(cfg, s, l);
    } else {
      TableStepKeepsStructure(cfg, s, l);
    }
  }

  lemma TableStepKeepsStructure(cfg: Config, s: State, l: Label)
    requires Structure(cfg, s) && !IsProvisioning(l) && !IsLocal(l)
    ensures Structure(cfg, Apply(cfg, s, l))
  {
    match l
    case Create(request) => CreateKeepsStructure(cfg, s, request);
    case Upload(id, artifact, data) => UploadKeepsStructure(cfg, s, id, artifact, data);
    case Delete(id) =>
      if s.pc.Cleaning? && Deletable(cfg, s, id, s.pc.startedAt) {
        DeleteKeepsStructure(cfg, s, id);
      }
    case BeginFinalize(order) => BeginFinalizeKeepsStructure(cfg, s, order);
    case CommitFinalize =>
      if s.pc.TeeGone? && s.pc.todo != [] {
        CompleteKeepsStructure(cfg, s);
      }
    case Pick =>
      if s.pc.Picking? {
        PickKeepsStructure(cfg, s);
      }
    case Recheck =>
      if s.pc.Rechecking? {
        RecheckKeepsStructure(cfg, s);
      }
    case Mark =>
      if s.pc.Marking? {
        MarkKeepsStructure(cfg, s);
      }
  }

  predicate IsLocal(l: Label) {
    l.Advance? || l.BeginCleanup? || l.EndCleanup? || l.SkipYoung? || l.ProbeAssigned? || l.EndFinalize?
    || l.Send? || l.Restart?
  }

  lemma LocalStepKeepsStructure(cfg: Config, s: State, l: Label)
    requires Structure(cfg, s) && IsLocal(l)
    ensures Structure(cfg, Apply(cfg, s, l))
  {
    LocalStepKeepsLocals(cfg, s, l);
    LocalStepKeepsTables(cfg, s, l);
    SameTablesKeepStructure(cfg, s, Apply(cfg, s, l));
  }

  lemma LocalStepKeepsLocals(cfg: Config, s: State, l: Label)
    requires LocalsKept(cfg, s) && IsLocal(l)
    ensures LocalsKept(cfg, Apply(cfg, s, l))
  {
  }

  lemma LocalStepKeepsTables(cfg: Config, s: State, l: Label)
    requires IsLocal(l)
    ensures
      var s' := Apply(cfg, s, l);
      && s'.dirs == s.dirs && s'.queue == s.queue && s'.nextUid == s.nextUid
      && s'.log == s.log.(sends := s'.log.sends)
  {
  }

  lemma ProvisionKeepsStructure(cfg: Config, s: State, l: Label)
    requires Structure(cfg, s) && IsProvisioning(l)
    ensures Structure(cfg, Apply(cfg, s, l))
  {
    if s.pc.Provisioning? {
      ProvisioningHolds(cfg, s);
      ProvisionOnlyProgresses(cfg, s, l);
      ProgressKeepsStructure(cfg, s, Apply(cfg, s, l));
    } else {
      ProvisionElsewhereDoesNothing(cfg, s, l);
    }
  }

  lemma ProvisioningHolds(cfg: Config, s: State)
    requires LocalsKept(cfg, s) && s.pc.Provisioning?
    ensures s.pc.job.id in s.dirs && s.dirs[s.pc.job.id].record == s.pc.job
  {
  }

  lemma ProvisionElsewhereDoesNothing(cfg: Config, s: State, l: Label)
    requires IsProvisioning(l) && !s.pc.Provisioning?
    ensures Apply(cfg, s, l) == s
  {
  }
}
