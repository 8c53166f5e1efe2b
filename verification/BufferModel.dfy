/** The buffer's job protocol as a step machine. One scheduler thread cleans up, finalizes, picks,
    provisions, rechecks, sends and marks; request threads create jobs and deliver artifacts
    between any two of its steps. A label that does not apply in a state changes nothing, so every
    label sequence is a run. Uploads and creates are single steps (the assumption under which the
    queue results hold; UploadRaces drops it). */
module BufferModel {
  import opened Wrappers
  import opened Bytes

  type JobId = string
  type Digest = string

  datatype Artifact = Model | Weights | Preprocessing

  datatype Status = PendingUpload | Queued | Dispatched | Complete | Rejected

  datatype Target = Gpu | Cpu

  /** The hex SHA-256 values given at submission; "" means not committed. */
  datatype Commitments = Commitments(model: Digest, weights: Digest, preprocessing: Digest) {
    function For(a: Artifact): Digest {
      match a
      case Model => model
      case Weights => weights
      case Preprocessing => preprocessing
    }
  }

  datatype Details = Details(hyperparameters: string, submittedBy: string, keycloakToken: string, notes: string)

  datatype CreateRequest = CreateRequest(jobId: JobId, datasetId: int, commitments: Commitments, details: Details)

  /** job.json. `uid` numbers the incarnations of an id, which may be reused after cleanup. */
  datatype Job = Job(
    id: JobId,
    uid: nat,
    status: Status,
    datasetId: int,
    submittedAt: int,
    updatedAt: int,
    details: Details,
    commitments: Commitments,
    gpuAttempts: int,
    target: Option<Target>,
    assignedTee: string,
    dispatchedAt: int,
    completedAt: Option<int>)

  /** A job directory: job.json and the files under artifacts/. */
  datatype JobDir = JobDir(record: Job, files: map<Artifact, Data>)

  datatype Payload = Payload(
    jobId: JobId,
    datasetId: int,
    submittedAt: int,
    submittedBy: string,
    keycloakToken: string,
    hyperparameters: string,
    model: Data,
    modelSha256: Digest,
    weights: Data,
    weightsSha256: Digest,
    preprocessing: Option<(Data, Digest)>)

  /** Environment variables and the hash function. */
  datatype Config = Config(
    sha256Hex: Data -> Digest,
    maxGpuAttempts: int,
    cooldown: int,
    gpuBootTimeout: int,
    cpuBootTimeout: int,
    stopWait: int,
    poll: int,
    grace: int,
    retention: int,
    gpuAddr: string,
    gpuDigest: string,
    cpuAddr: string,
    cpuDigest: string)

  /** What provisioning hands to the dispatch: where, and which image to expect there. */
  datatype Choice = Choice(target: Target, addr: string, digest: Digest)

  datatype StartOutcome = NotConfigured | Failed | Accepted

  /** Where a provisioning call stands. */
  datatype Phase =
    | Entry
    | Awaiting(target: Target)
    | Starting(target: Target, now: int)
    | Waiting(target: Target, deadline: real)
    | CpuEntry
    | CpuProbing

  /** The scheduler's program counter with its local variables. */
  datatype Pc =
    | Idle
    | Cleaning(startedAt: real)
    | Cleaned
    | Finalizing(now: int, todo: seq<Job>)
    | TeeGone(now: int, todo: seq<Job>)
    | Picking
    | Provisioning(job: Job, phase: Phase, startsThisCall: nat)
    | Rechecking(job: Job, choice: Choice)
    | Sending(job: Job, payload: Payload, choice: Choice)
    | Marking(job: Job, payload: Payload, choice: Choice)

  datatype CreateRecord = CreateRecord(request: CreateRequest, at: int)
  datatype UploadRecord = UploadRecord(uid: nat, artifact: Artifact, data: Data, accepted: bool)
  datatype StartRecord = StartRecord(uid: nat, target: Target, now: int, outcome: StartOutcome)
  datatype PayloadRecord = PayloadRecord(uid: nat, payload: Payload)
  datatype SendRecord = SendRecord(uid: nat, choice: Choice, gpuAttempts: int, payload: Payload)
  datatype DeletionRecord = DeletionRecord(record: Job, at: real)

  /** What happened so far; nothing in the machine reads it. `creates` is in the order of the uids. */
  datatype History = History(
    creates: seq<CreateRecord>,
    enqueued: seq<JobId>,
    marked: seq<JobId>,
    completed: seq<JobId>,
    uploads: seq<UploadRecord>,
    starts: seq<StartRecord>,
    payloads: seq<PayloadRecord>,
    sends: seq<SendRecord>,
    deletions: seq<DeletionRecord>)

  datatype State = State(
    dirs: map<JobId, JobDir>,
    queue: seq<JobId>,
    lastStart: map<Target, int>,
    lastAnyStart: int,
    clock: real,
    nextUid: nat,
    pc: Pc,
    log: History)

  const INIT: State :=
    State(map[], [], map[], 0, 0.0, 0, Idle, History([], [], [], [], [], [], [], [], []))

  datatype Label =
    | Create(request: CreateRequest)
    | Upload(id: JobId, artifact: Option<Artifact>, data: Data)
    | Advance(seconds: real)
    | BeginCleanup
    | Delete(id: JobId)
    | EndCleanup
    | BeginFinalize(order: seq<JobId>)
    | SkipYoung
    | ProbeAssigned(healthy: bool)
    | CommitFinalize
    | EndFinalize
    | Pick
    | GpuExhausted
    | ProbeGpu(healthy: bool)
    | BeginStart
    | EndStart(outcome: StartOutcome)
    | WaitHealthy
    | WaitTimedOut
    | EnterCpu
    | ProbeCpu(healthy: bool)
    | Recheck
    | Send(ok: bool)
    | Mark
    | Restart

  /** Steps of the request threads, and time. */
  predicate IsEnvironment(l: Label) {
    l.Create? || l.Upload? || l.Advance?
  }

  /** Steps inside a provisioning call. */
  predicate IsProvisioning(l: Label) {
    l.GpuExhausted? || l.ProbeGpu? || l.BeginStart? || l.EndStart? || l.WaitHealthy? || l.WaitTimedOut?
    || l.EnterCpu? || l.ProbeCpu?
  }

  function Apply(cfg: Config, s: State, l: Label): State {
    match l
    case Create(request) => CreateJobRecord(s, request)
    case Upload(id, artifact, data) => ReceiveArtifact(cfg, s, id, artifact, data)
    case Advance(seconds) => if seconds >= 0.0 then s.(clock := s.clock + seconds) else s
    case BeginCleanup => if s.pc.Idle? then s.(pc := Cleaning(s.clock)) else s
    case Delete(id) => if s.pc.Cleaning? && Deletable(cfg, s, id, s.pc.startedAt) then DeleteJob(s, id) else s
    case EndCleanup => if s.pc.Cleaning? then s.(pc := Cleaned) else s
    case BeginFinalize(order) =>
      if s.pc.Cleaned? && ListsDispatched(s, order) then
        s.(pc := Finalizing(s.clock.Floor, Snapshot(s, order)))
      else s
    case SkipYoung =>
      if s.pc.Finalizing? && s.pc.todo != [] && s.pc.now - s.pc.todo[0].dispatchedAt < cfg.grace then
        s.(pc := Finalizing(s.pc.now, s.pc.todo[1..]))
      else s
    case ProbeAssigned(healthy) =>
      if s.pc.Finalizing? && s.pc.todo != [] && s.pc.now - s.pc.todo[0].dispatchedAt >= cfg.grace then
        if healthy then s.(pc := Finalizing(s.pc.now, s.pc.todo[1..])) else s.(pc := TeeGone(s.pc.now, s.pc.todo))
      else s
    case CommitFinalize =>
      if s.pc.TeeGone? && s.pc.todo != [] then
        CompleteJob(s, s.pc.todo[0].id, s.pc.now).(pc := Finalizing(s.pc.now, s.pc.todo[1..]))
      else s
    case EndFinalize => if s.pc.Finalizing? && s.pc.todo == [] then s.(pc := Picking) else s
    case Pick => if s.pc.Picking? then s.(pc := AfterPick(s)) else s
    case Recheck => if s.pc.Rechecking? then RecheckAndBuild(cfg, s, s.pc.job, s.pc.choice) else s
    case Send(ok) =>
      if s.pc.Sending? then
        if ok && s.pc.choice.digest != "" then RecordSend(s, s.pc.job, s.pc.payload, s.pc.choice) else s.(pc := Idle)
      else s
    case Mark => if s.pc.Marking? then MarkJobDispatched(s, s.pc.job.id, s.pc.choice.addr).(pc := Idle) else s
    case Restart => if s.pc.Marking? || InStart(s.pc) then s else s.(pc := Idle)
    case _ => if s.pc.Provisioning? then Provision(cfg, s, s.pc.job, s.pc.phase, s.pc.startsThisCall, l) else s
  }

  /** A start command is running: its outcome is not on disk yet. */
  predicate InStart(pc: Pc) {
    pc.Provisioning? && pc.phase.Starting?
  }

  /** The state a label sequence leads to. */
  function Exec(cfg: Config, steps: seq<Label>): State {
    if steps == [] then INIT else Apply(cfg, Exec(cfg, steps[..|steps| - 1]), steps[|steps| - 1])
  }

  // ---------------------------------------------------------------- request threads

  predicate ValidDataset(datasetId: int) {
    1 <= datasetId <= 3
  }

  function NewJob(s: State, request: CreateRequest): Job {
    Job(request.jobId, s.nextUid, PendingUpload, request.datasetId, s.clock.Floor, s.clock.Floor,
        request.details, request.commitments, 0, None, "", 0, None)
  }

  function CreateJobRecord(s: State, request: CreateRequest): State {
    if !ValidDataset(request.datasetId) || request.jobId in s.dirs then s
    else
      s.(dirs := s.dirs[request.jobId := JobDir(NewJob(s, request), map[])], nextUid := s.nextUid + 1,
         log := s.log.(creates := s.log.creates + [CreateRecord(request, s.clock.Floor)]))
  }

  /** The hash check of an upload: uncommitted artifacts are not checked. */
  predicate Accepts(cfg: Config, commitments: Commitments, a: Artifact, data: Data) {
    commitments.For(a) == "" || cfg.sha256Hex(data) == commitments.For(a)
  }

  predicate Buildable(dir: JobDir) {
    Model in dir.files && Weights in dir.files
  }

  predicate AllRequired(dir: JobDir) {
    && Buildable(dir)
    && (dir.record.commitments.preprocessing != "" ==> Preprocessing in dir.files)
  }

  /** The file is written before the hash is looked at, so a rejected upload stays on disk. */
  function ReceiveArtifact(cfg: Config, s: State, id: JobId, artifact: Option<Artifact>, data: Data): State {
    if id !in s.dirs || !s.dirs[id].record.status.PendingUpload? || artifact.None? then s
    else
      var dir := s.dirs[id].(files := s.dirs[id].files[artifact.value := data]);
      var accepted := Accepts(cfg, dir.record.commitments, artifact.value, data);
      var uploads := s.log.uploads + [UploadRecord(dir.record.uid, artifact.value, data, accepted)];
      if !accepted then
        s.(dirs := s.dirs[id := dir], log := s.log.(uploads := uploads))
      else if !AllRequired(dir) then
        s.(dirs := s.dirs[id := dir.(record := dir.record.(updatedAt := s.clock.Floor))],
           log := s.log.(uploads := uploads))
      else
        s.(dirs := s.dirs[id := dir.(record := dir.record.(updatedAt := s.clock.Floor, status := Queued))],
           queue := s.queue + [id],
           log := s.log.(uploads := uploads, enqueued := s.log.enqueued + [id]))
  }

  // ---------------------------------------------------------------- cleanup and finalize

  predicate Deletable(cfg: Config, s: State, id: JobId, now: real) {
    && id in s.dirs
    && (s.dirs[id].record.status.Complete? || s.dirs[id].record.status.Rejected?)
    && now - s.dirs[id].record.updatedAt as real >= cfg.retention as real
  }

  function DeleteJob(s: State, id: JobId): State
    requires id in s.dirs
  {
    s.(dirs := s.dirs - {id},
       log := s.log.(deletions := s.log.deletions + [DeletionRecord(s.dirs[id].record, s.clock)]))
  }

  predicate HasStatus(s: State, id: JobId, status: Status) {
    id in s.dirs && s.dirs[id].record.status == status
  }

  predicate NoDuplicates(ids: seq<JobId>) {
    forall i, j :: 0 <= i < j < |ids| ==> ids[i] != ids[j]
  }

  /** order is a listing of the dispatched jobs, each once. */
  predicate ListsDispatched(s: State, order: seq<JobId>) {
    && NoDuplicates(order)
    && (forall id <- order :: HasStatus(s, id, Dispatched))
    && (forall id <- s.dirs :: HasStatus(s, id, Dispatched) ==> id in order)
  }

  function Snapshot(s: State, order: seq<JobId>): (todo: seq<Job>)
    requires forall id <- order :: id in s.dirs
    ensures |todo| == |order|
    ensures forall i :: 0 <= i < |order| ==> todo[i] == s.dirs[order[i]].record
  {
    seq(|order|, i requires 0 <= i < |order| => s.dirs[order[i]].record)
  }

  function CompleteJob(s: State, id: JobId, now: int): State {
    if !HasStatus(s, id, Dispatched) then s
    else
      SaveJob(s, s.dirs[id].record.(status := Complete, updatedAt := now, completedAt := Some(now)))
        .(log := s.log.(completed := s.log.completed + [id]))
  }

  /** Writes the whole record back, whatever is on disk by now. */
  function SaveJob(s: State, job: Job): State {
    s.(dirs := s.dirs[job.id := JobDir(job, if job.id in s.dirs then s.dirs[job.id].files else map[])])
  }

  // ---------------------------------------------------------------- pick and provision

  /** The first queued id whose record exists and is queued. */
  function NextQueuedFrom(dirs: map<JobId, JobDir>, ids: seq<JobId>): Option<Job> {
    if ids == [] then None
    else if ids[0] in dirs && dirs[ids[0]].record.status.Queued? then Some(dirs[ids[0]].record)
    else NextQueuedFrom(dirs, ids[1..])
  }

  function NextQueued(s: State): Option<Job> {
    NextQueuedFrom(s.dirs, s.queue)
  }

  function AfterPick(s: State): Pc {
    if exists id <- s.dirs :: HasStatus(s, id, Dispatched) then Idle
    else
      var next := NextQueued(s);
      if next.None? then Idle else Provisioning(next.value, Entry, 0)
  }

  function ChoiceFor(cfg: Config, t: Target): Choice {
    match t
    case Gpu => Choice(Gpu, cfg.gpuAddr, cfg.gpuDigest)
    case Cpu => Choice(Cpu, cfg.cpuAddr, cfg.cpuDigest)
  }

  /** Provisioning succeeded on t; an empty address counts as no target. */
  function Choose(cfg: Config, job: Job, t: Target): Pc {
    if ChoiceFor(cfg, t).addr == "" then Idle else Rechecking(job, ChoiceFor(cfg, t))
  }

  /** The timestamp a start is measured against: the target's own, or the latest of any target. */
  function LastStart(s: State, t: Target): int {
    if t in s.lastStart then s.lastStart[t] else s.lastAnyStart
  }

  function Provision(cfg: Config, s: State, job: Job, phase: Phase, n: nat, l: Label): State {
    match (l, phase)
    case (GpuExhausted, Entry) =>
      if job.gpuAttempts >= cfg.maxGpuAttempts then s.(pc := Provisioning(job, CpuEntry, n)) else s
    case (ProbeGpu(healthy), Entry) =>
      if job.gpuAttempts >= cfg.maxGpuAttempts then s
      else if healthy then
        var job' := job.(target := Some(Gpu));
        SaveJob(s, job').(pc := Choose(cfg, job', Gpu))
      else s.(pc := Provisioning(job, Awaiting(Gpu), n))
    case (BeginStart, Awaiting(t)) =>
      var now := s.clock.Floor;
      if now - LastStart(s, t) < cfg.cooldown then s.(pc := Idle) else s.(pc := Provisioning(job, Starting(t, now), n))
    case (EndStart(outcome), Starting(t, now)) => FinishStart(cfg, s, job, t, now, n, outcome)
    case (WaitHealthy, Waiting(t, _)) => s.(pc := Choose(cfg, job, t))
    case (WaitTimedOut, Waiting(t, deadline)) =>
      if s.clock < deadline then s
      else if t.Cpu? then s.(pc := Idle)
      else if job.gpuAttempts < cfg.maxGpuAttempts then s.(pc := Provisioning(job, Awaiting(Gpu), n))
      else s.(pc := Provisioning(job, CpuEntry, n))
    case (EnterCpu, CpuEntry) =>
      if cfg.cpuAddr == "" || cfg.cpuDigest == "" then s.(pc := Idle)
      else
        var job' := job.(target := Some(Cpu));
        SaveJob(s, job').(pc := Provisioning(job', CpuProbing, n))
    case (ProbeCpu(healthy), CpuProbing) =>
      if healthy then s.(pc := Choose(cfg, job, Cpu)) else s.(pc := Provisioning(job, Awaiting(Cpu), n))
    case _ => s
  }

  /** The start command has returned: its timestamp is saved whatever the outcome, but only an
      accepted GPU start is counted against the job. */
  function FinishStart(cfg: Config, s: State, job: Job, t: Target, now: int, n: nat, outcome: StartOutcome): State {
    var s1 := s.(lastStart := s.lastStart[t := now], lastAnyStart := now,
                 log := s.log.(starts := s.log.starts + [StartRecord(job.uid, t, now, outcome)]));
    if !outcome.Accepted? then s1.(pc := Idle)
    else if t.Gpu? then
      var job' := job.(gpuAttempts := job.gpuAttempts + 1, target := Some(Gpu));
      SaveJob(s1, job').(pc := Provisioning(job', Waiting(Gpu, s.clock + cfg.gpuBootTimeout as real), n + 1))
    else
      s1.(pc := Provisioning(job, Waiting(Cpu, s.clock + cfg.cpuBootTimeout as real), n))
  }

  // ---------------------------------------------------------------- recheck, send, mark

  function BuildPayload(cfg: Config, dir: JobDir): Payload
    requires Buildable(dir)
  {
    var job := dir.record;
    Payload(job.id, job.datasetId, job.submittedAt, job.details.submittedBy, job.details.keycloakToken,
            job.details.hyperparameters,
            dir.files[Model], cfg.sha256Hex(dir.files[Model]),
            dir.files[Weights], cfg.sha256Hex(dir.files[Weights]),
            if Preprocessing in dir.files
            then Some((dir.files[Preprocessing], cfg.sha256Hex(dir.files[Preprocessing])))
            else None)
  }

  /** Gives up when the head of the queue is another job, or when its model or weights are missing. */
  function RecheckAndBuild(cfg: Config, s: State, job: Job, choice: Choice): State {
    var current := NextQueued(s);
    if current.None? || current.value.id != job.id || current.value.id !in s.dirs
      || !Buildable(s.dirs[current.value.id])
    then s.(pc := Idle)
    else
      var payload := BuildPayload(cfg, s.dirs[current.value.id]);
      s.(pc := Sending(job, payload, choice),
         log := s.log.(payloads := s.log.payloads + [PayloadRecord(current.value.uid, payload)]))
  }

  function RecordSend(s: State, job: Job, payload: Payload, choice: Choice): State {
    s.(pc := Marking(job, payload, choice),
       log := s.log.(sends := s.log.sends + [SendRecord(job.uid, choice, job.gpuAttempts, payload)]))
  }

  /** Drops every occurrence of an id. */
  function Without(ids: seq<JobId>, id: JobId): seq<JobId> {
    if ids == [] then []
    else if ids[0] == id then Without(ids[1..], id)
    else [ids[0]] + Without(ids[1..], id)
  }

  function MarkJobDispatched(s: State, id: JobId, addr: string): State {
    if id !in s.dirs then s
    else
      var now := s.clock.Floor;
      var job := s.dirs[id].record.(status := Dispatched, assignedTee := addr, dispatchedAt := now, updatedAt := now);
      SaveJob(s, job).(queue := Without(s.queue, id), log := s.log.(marked := s.log.marked + [id]))
  }
}
