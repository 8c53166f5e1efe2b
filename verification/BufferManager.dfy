/** The manager as it runs: job.json, queue.json and dispatch_state.json updated in place by loops
    and calls, with request threads interfering wherever the scheduler holds no lock. Every method
    extends one run of the step machine, so what BufferTheorems proves of runs holds of it. */
module BufferManager {
  import opened Wrappers
  import opened Bytes
  import opened Integers
  import opened BufferModel
  import opened BufferHistory
  import opened BufferInvariant
  import opened BufferTheorems

  datatype RequestError =
    | BadDataset
    | JobExists
    | UnknownJob
    | NotAwaitingUpload(status: Status)
    | UnknownArtifact
    | HashMismatch

  /** Where a health probe goes: to a target's configured URL, or to an address it was given. */
  datatype Endpoint = HealthUrl(target: Target) | HealthAt(addr: string)

  datatype Command = StartOf(target: Target) | StopOf(target: Target)

  /** What the scheduler asked of the outside world, and the answer. */
  datatype Event =
    | Probed(endpoint: Endpoint, healthy: bool)
    | Ran(command: Command, ok: bool)
    | Unconfigured(command: Command)
    | Sent(addr: string, digest: Digest, payload: Payload, ok: bool)
    | Removed(id: JobId, ok: bool)

  /** The RA-TLS client is killed after three minutes. */
  const SEND_SECONDS: real := 180.0

  datatype RoundOutcome = NotIssued | Healthy | TimedOut

  /** A health probe gives up after five seconds to connect and five to answer. */
  const PROBE_SECONDS: real := 10.0

  /** VM start and stop commands are killed after a minute. */
  const COMMAND_SECONDS: real := 60.0

  /** The run went on by steps of the environment only, or also by provisioning steps. */
  ghost predicate OnlyAdds(before: seq<Label>, after: seq<Label>, provisioning: bool) {
    && before <= after
    && forall i :: |before| <= i < |after| ==> IsEnvironment(after[i]) || (provisioning && IsProvisioning(after[i]))
  }

  lemma RecordsNamed(cfg: Config, steps: seq<Label>, s: State)
    requires Reached(cfg, steps, s)
    ensures forall id <- s.dirs :: s.dirs[id].record.id == id
  {
    ReachedIs(cfg, steps, s);
    AlwaysKept(cfg, steps);
  }

  /** Marking always finds its job, at the head of the queue. */
  lemma MarkTakesHead(cfg: Config, steps: seq<Label>, s: State)
    requires Reached(cfg, steps, s) && s.pc.Marking?
    ensures
      var (id, s') := (s.pc.job.id, Apply(cfg, s, Mark));
      && id in s.dirs && s.dirs[id].record.id == id && id !in s'.queue
      && s.queue == [id] + s'.queue && s'.log.marked == s.log.marked + [id]
  {
    ReachedKept(cfg, steps, s);
    HeldTakesHead(cfg, s);
  }

  lemma HeldTakesHead(cfg: Config, s: State)
    requires Structure(cfg, s) && s.pc.Marking?
    ensures
      var (id, s') := (s.pc.job.id, Apply(cfg, s, Mark));
      && id in s.dirs && s.dirs[id].record.id == id && id !in s'.queue
      && s.queue == [id] + s'.queue && s'.log.marked == s.log.marked + [id]
  {
    MarkKeepsQueue(cfg, s);
  }

  /** What request threads and time leave alone: the scheduler's program counter and its part of the
      dispatch state and of the history. */
  ghost predicate EnvironmentOnly(s: State, s': State) {
    && s'.pc == s.pc && s'.lastStart == s.lastStart && s'.lastAnyStart == s.lastAnyStart
    && s'.log == s.log.(creates := s'.log.creates, uploads := s'.log.uploads, enqueued := s'.log.enqueued)
  }

  lemma RequestsLeaveScheduler(cfg: Config, s: State, l: Label)
    requires l.Create? || l.Upload?
    ensures EnvironmentOnly(s, Apply(cfg, s, l)) && Apply(cfg, s, l).clock == s.clock
  {
  }

  /** The steps since `before` end with a start command that was not accepted. */
  ghost predicate EndsRefused(before: seq<Label>, after: seq<Label>) {
    |before| < |after| && after[|after| - 1].EndStart? && !after[|after| - 1].outcome.Accepted?
  }

  /** They end with a start that the cooldown skipped. */
  ghost predicate EndsSkipped(before: seq<Label>, after: seq<Label>) {
    |before| < |after| && after[|after| - 1] == BeginStart
  }

  /** With a boot timeout of at least the cooldown, a GPU retry within a call is not skipped. */
  lemma RetryIssued(cfg: Config, steps: seq<Label>, s: State)
    requires Reached(cfg, steps, s) && s.pc.Provisioning? && s.pc.phase == Awaiting(Gpu)
    ensures s.pc.startsThisCall > 0 && cfg.gpuBootTimeout >= cfg.cooldown ==> InStart(Apply(cfg, s, BeginStart).pc)
  {
    ReachedKept(cfg, steps, s);
    if s.pc.startsThisCall > 0 && cfg.gpuBootTimeout >= cfg.cooldown {
      RetryAdmitted(cfg, s);
    }
  }

  // ---------------------------------------------------------------- what was asked and answered

  predicate SaysHealthy(e: Event) {
    e.Probed? && e.healthy
  }

  /** Of what was asked since, no probe found anything healthy. */
  ghost predicate NoneHealthy(before: seq<Event>, after: seq<Event>) {
    before <= after && forall i :: |before| <= i < |after| ==> !SaysHealthy(after[i])
  }

  /** The last thing asked since, and the only probe that came out healthy, was one of this target. */
  ghost predicate FoundHealthy(before: seq<Event>, after: seq<Event>, t: Target) {
    && |before| < |after| && NoneHealthy(before, after[..|after| - 1])
    && after[|after| - 1] == Probed(HealthUrl(t), true)
  }

  /** Nothing but the target was probed, until it was healthy or to no avail. */
  ghost predicate OnlyProbed(before: seq<Event>, after: seq<Event>, t: Target) {
    before <= after && forall i :: |before| <= i < |after| ==> after[i].Probed? && after[i].endpoint == HealthUrl(t)
  }

  /** Since then the GPU's start command was run and accepted. */
  ghost predicate GpuStarted(before: seq<Event>, after: seq<Event>) {
    before <= after && exists i :: |before| <= i < |after| && after[i] == Ran(StartOf(Gpu), true)
  }

  /** A request to stop the GPU: the command was run, or there is none. */
  predicate StopAsked(e: Event) {
    (e.Ran? || e.Unconfigured?) && e.command == StopOf(Gpu)
  }

  /** How the outcome of a start was answered. */
  function StartEvent(target: Target, outcome: StartOutcome): Event {
    match outcome
    case NotConfigured => Unconfigured(StartOf(target))
    case Failed => Ran(StartOf(target), false)
    case Accepted => Ran(StartOf(target), true)
  }

  lemma NoneHealthyThen(a: seq<Event>, b: seq<Event>, c: seq<Event>)
    requires NoneHealthy(a, b) && NoneHealthy(b, c)
    ensures NoneHealthy(a, c)
  {
    assert forall i :: |a| <= i < |b| ==> c[i] == b[i];
  }

  lemma FoundHealthyThen(a: seq<Event>, b: seq<Event>, c: seq<Event>, t: Target)
    requires NoneHealthy(a, b) && FoundHealthy(b, c, t)
    ensures FoundHealthy(a, c, t)
  {
    NoneHealthyThen(a, b, c[..|c| - 1]);
  }

  // ---------------------------------------------------------------- what a step comes to

  /** Provisioning has chosen this target: its own address and digest for a job, or nothing if there is no
      address. */
  ghost predicate Chosen(cfg: Config, pc: Pc, job: Job, t: Target) {
    if (if t.Gpu? then cfg.gpuAddr else cfg.cpuAddr) == "" then pc.Idle?
    else pc.Rechecking? && pc.job == job && pc.choice.target == t && OwnTarget(cfg, pc.choice)
  }

  /** The digest a request committed to, where it committed to one, is not that of these bytes. */
  ghost predicate FailsHash(cfg: Config, c: Commitments, a: Artifact, data: Data) {
    || (a.Model? && c.model != "" && cfg.sha256Hex(data) != c.model)
    || (a.Weights? && c.weights != "" && cfg.sha256Hex(data) != c.weights)
    || (a.Preprocessing? && c.preprocessing != "" && cfg.sha256Hex(data) != c.preprocessing)
  }

  /** A job may be queued with these files. */
  ghost predicate ReadyToQueue(files: map<Artifact, Data>, c: Commitments) {
    Model in files && Weights in files && (c.preprocessing != "" ==> Preprocessing in files)
  }

  /** A finished job whose record has not changed for the retention time. */
  ghost predicate Expired(cfg: Config, job: Job, now: real) {
    (job.status.Complete? || job.status.Rejected?) && now - job.updatedAt as real >= cfg.retention as real
  }

  /** job is the record of the first id of the queue whose record says queued. */
  ghost predicate FirstQueued(dirs: map<JobId, JobDir>, queue: seq<JobId>, job: Job) {
    exists i :: 0 <= i < |queue| && queue[i] in dirs && dirs[queue[i]].record == job && job.status.Queued?
             && forall j :: 0 <= j < i && queue[j] in dirs ==> !dirs[queue[j]].record.status.Queued?
  }

  /** The payload is made of a job's record and files. */
  ghost predicate MadeOf(cfg: Config, p: Payload, dir: JobDir) {
    && Model in dir.files && p.model == dir.files[Model] && p.modelSha256 == cfg.sha256Hex(dir.files[Model])
    && Weights in dir.files && p.weights == dir.files[Weights] && p.weightsSha256 == cfg.sha256Hex(dir.files[Weights])
    && (Preprocessing in dir.files <==> p.preprocessing.Some?)
    && (Preprocessing in dir.files ==>
          p.preprocessing.value == (dir.files[Preprocessing], cfg.sha256Hex(dir.files[Preprocessing])))
    && p.jobId == dir.record.id && p.datasetId == dir.record.datasetId && p.submittedAt == dir.record.submittedAt
    && p.submittedBy == dir.record.details.submittedBy && p.keycloakToken == dir.record.details.keycloakToken
    && p.hyperparameters == dir.record.details.hyperparameters
  }

  /** What finalizing a dispatched job comes to: left alone within its grace; else probed where it was
      assigned, and completed exactly if the probe failed. */
  ghost predicate Finalized(
    cfg: Config, now: int, job: Job, finalized: seq<JobId>, before: seq<Event>, after: seq<Event>)
  {
    var addr := if job.assignedTee == "" then cfg.gpuAddr else job.assignedTee;
    if now - job.dispatchedAt < cfg.grace then finalized == [] && after == before
    else
      && after == before + [Probed(HealthAt(addr), finalized == [])]
      && (finalized == [] || finalized == [job.id])
  }

  /** A send has just succeeded: to its target's own address and under its digest, recorded as asked, and
      the job's record now names that address. */
  ghost predicate Dispatching(
    cfg: Config, before: seq<SendRecord>, after: seq<SendRecord>, asked: seq<Event>, events: seq<Event>,
    dirs: map<JobId, JobDir>, id: JobId)
  {
    && |after| == |before| + 1 && before <= after && |asked| < |events| && asked <= events
    && var send := after[|before|];
    && OwnTarget(cfg, send.choice) && send.choice.addr != "" && send.choice.digest != ""
    && events[|events| - 1] == Sent(send.choice.addr, send.choice.digest, send.payload, true)
    && id in dirs && dirs[id].record.status.Dispatched? && dirs[id].record.assignedTee == send.choice.addr
  }

  lemma DispatchingSince(
    cfg: Config, before: seq<SendRecord>, after: seq<SendRecord>, asked: seq<Event>, later: seq<Event>,
    events: seq<Event>, dirs: map<JobId, JobDir>, id: JobId)
    requires asked <= later && Dispatching(cfg, before, after, later, events, dirs, id)
    ensures Dispatching(cfg, before, after, asked, events, dirs, id)
  {
  }

  /** Removals asked for one after the other, of which these succeeded. */
  function Removals(tried: seq<JobId>, removed: set<JobId>): seq<Event> {
    seq(|tried|, i requires 0 <= i < |tried| => Removed(tried[i], tried[i] in removed))
  }

  lemma RemovalsAppend(tried: seq<JobId>, removed: set<JobId>, id: JobId, ok: bool)
    requires id !in tried && forall r <- removed :: r in tried
    ensures
      Removals(tried + [id], if ok then removed + {id} else removed) == Removals(tried, removed) + [Removed(id, ok)]
  {
  }

  /** Of these ids, exactly those of expired jobs have been tried. */
  ghost predicate TriedUpTo(
    cfg: Config, dirs: map<JobId, JobDir>, now: real, ids: seq<JobId>, tried: seq<JobId>)
  {
    forall id :: id in tried <==> id in ids && id in dirs && Expired(cfg, dirs[id].record, now)
  }

  lemma NextTried(cfg: Config, dirs: map<JobId, JobDir>, now: real, ids: seq<JobId>, i: nat, tried: seq<JobId>)
    requires NoDuplicates(ids) && i < |ids| && ids[i] in dirs && TriedUpTo(cfg, dirs, now, ids[..i], tried)
    ensures ids[i] !in tried
    ensures TriedUpTo(cfg, dirs, now, ids[..i + 1],
                      if Expired(cfg, dirs[ids[i]].record, now) then tried + [ids[i]] else tried)
  {
    assert ids[..i + 1] == ids[..i] + [ids[i]];
    assert ids[i] !in ids[..i];
  }

  lemma FilesAgree(cfg: Config, steps: seq<Label>, s: State)
    requires Reached(cfg, steps, s)
    ensures s.log.enqueued == s.log.completed + InFlight(s) + s.queue && NoDuplicates(s.queue)
    ensures forall a, b :: HasStatus(s, a, Dispatched) && HasStatus(s, b, Dispatched) ==> a == b
  {
    ReachedIs(cfg, steps, s);
    FifoConservation(cfg, steps);
  }

  /** What lists the dispatched jobs is at most one long, since at most one is. */
  lemma SnapshotIs(cfg: Config, steps: seq<Label>, s: State, order: seq<JobId>, todo: seq<Job>)
    requires Reached(cfg, steps, s) && NoDuplicates(order) && |todo| == |order|
    requires forall k :: 0 <= k < |order| ==> order[k] in s.dirs && todo[k] == s.dirs[order[k]].record
    requires forall id :: id in order <==> id in s.dirs && s.dirs[id].record.status.Dispatched?
    ensures ListsDispatched(s, order) && todo == Snapshot(s, order) && |todo| <= 1
  {
    ReachedIs(cfg, steps, s);
    if |order| > 1 {
      assert order[0] in order && order[1] in order;
      AtMostOneDispatched(cfg, steps, order[0], order[1]);
    }
  }

  /** A job to be completed is still as it was listed. */
  lemma StillDispatched(cfg: Config, steps: seq<Label>, s: State)
    requires Reached(cfg, steps, s) && s.pc.TeeGone? && s.pc.todo != []
    ensures s.pc.todo[0].id in s.dirs && s.dirs[s.pc.todo[0].id].record == s.pc.todo[0]
    ensures s.pc.todo[0].status.Dispatched?
  {
    ReachedKept(cfg, steps, s);
  }

  /** Provisioning sends, marks and completes nothing. */
  lemma {:induction false} QuietProvisioning(
    cfg: Config, steps: seq<Label>, s: State, steps': seq<Label>, s': State)
    requires Reached(cfg, steps, s) && Reached(cfg, steps', s') && OnlyAdds(steps, steps', true)
    ensures s'.log.sends == s.log.sends && s'.log.marked == s.log.marked && s'.log.completed == s.log.completed
    decreases |steps'|
  {
    if |steps'| == |steps| {
      assert steps' == steps;
      ReachedOnce(cfg, steps, s, s');
    } else {
      var last := |steps'| - 1;
      var before := LastStep(cfg, steps', s');
      assert OnlyAdds(steps, steps'[..last], true);
      QuietProvisioning(cfg, steps, s, steps'[..last], before);
      QuietStep(cfg, before, steps'[last]);
    }
  }

  lemma QuietStep(cfg: Config, s: State, l: Label)
    requires IsEnvironment(l) || IsProvisioning(l)
    ensures
      var s' := Apply(cfg, s, l);
      s'.log.sends == s.log.sends && s'.log.marked == s.log.marked && s'.log.completed == s.log.completed
  {
    if IsProvisioning(l) {
      ProvisionLogs(cfg, s, l);
    }
  }

  // ---------------------------------------------------------------- wait arithmetic

  /** What the stop wait sleeps in all, from `waited` seconds on. */
  function StopSleeps(stopWait: int, poll: int, waited: int): int
    requires poll > 0
    decreases stopWait - waited
  {
    if waited < stopWait then Min(poll, stopWait - waited) + StopSleeps(stopWait, poll, waited + poll) else 0
  }

  /** The last sleep is cut short, so the wait is exact for every positive poll interval. */
  lemma {:induction false} StopWaitIsExact(stopWait: int, poll: int, waited: int)
    requires poll > 0
    ensures StopSleeps(stopWait, poll, waited) == if waited < stopWait then stopWait - waited else 0
    decreases stopWait - waited
  {
    if waited < stopWait {
      StopWaitIsExact(stopWait, poll, waited + poll);
    }
  }

  /** The longest a boot wait can take: a probe and a sleep may start just before the deadline. */
  function BootWait(cfg: Config, timeout: int): real {
    (if timeout > 0 then timeout as real else 0.0) + PROBE_SECONDS + cfg.poll as real
  }

  function StopTime(cfg: Config): real {
    COMMAND_SECONDS + if cfg.stopWait > 0 then cfg.stopWait as real else 0.0
  }

  /** One GPU attempt: stop, start, wait for boot, stop. */
  function RoundTime(cfg: Config): real {
    StopTime(cfg) + COMMAND_SECONDS + BootWait(cfg, cfg.gpuBootTimeout) + StopTime(cfg)
  }

  function Rounds(n: nat, each: real): (total: real)
    ensures each >= 0.0 ==> total >= 0.0
  {
    if n == 0 then 0.0 else each + Rounds(n - 1, each)
  }

  lemma {:induction false} RoundsIsProduct(n: nat, each: real)
    ensures Rounds(n, each) == n as real * each
  {
    if n > 0 {
      RoundsIsProduct(n - 1, each);
      assert ((n - 1) as real + 1.0) * each == (n - 1) as real * each + each;
    }
  }

  function CpuTime(cfg: Config): real {
    PROBE_SECONDS + COMMAND_SECONDS + BootWait(cfg, cfg.cpuBootTimeout)
  }

  function AttemptsLeft(cfg: Config, job: Job): nat {
    if job.gpuAttempts < cfg.maxGpuAttempts then cfg.maxGpuAttempts - job.gpuAttempts else 0
  }

  /** The longest one provisioning call can take. */
  function ProvisioningTime(cfg: Config, job: Job): real {
    PROBE_SECONDS + Rounds(AttemptsLeft(cfg, job), RoundTime(cfg)) + CpuTime(cfg)
  }

  /** In closed form, for positive timeouts and waits. */
  lemma ProvisioningTimeIs(cfg: Config, job: Job)
    requires cfg.gpuBootTimeout > 0 && cfg.cpuBootTimeout > 0 && cfg.stopWait >= 0
    ensures ProvisioningTime(cfg, job)
         == AttemptsLeft(cfg, job) as real * (190.0 + (2 * cfg.stopWait + cfg.gpuBootTimeout + cfg.poll) as real)
            + 90.0 + (cfg.cpuBootTimeout + cfg.poll) as real
  {
    RoundsIsProduct(AttemptsLeft(cfg, job), RoundTime(cfg));
    assert RoundTime(cfg) == 190.0 + (2 * cfg.stopWait + cfg.gpuBootTimeout + cfg.poll) as real;
  }

  class Manager {
    const cfg: Config

    var dirs: map<JobId, JobDir>
    var queue: seq<JobId>
    var lastStart: map<Target, int>
    var lastAnyStart: int
    var clock: real
    var nextUid: nat

    /** The steps taken so far, and the state of the machine they lead to. */
    ghost var steps: seq<Label>
    ghost var at: State

    /** What probes, commands, sends and removals answered. */
    ghost var events: seq<Event>

    /** The fields are those of the state the recorded run leads to. */
    ghost predicate Valid()
      reads this
    {
      Agrees(at) && Reached(cfg, steps, at)
    }

    ghost predicate Agrees(s: State)
      reads this
    {
      && dirs == s.dirs && queue == s.queue && lastStart == s.lastStart && lastAnyStart == s.lastAnyStart
      && clock == s.clock && nextUid == s.nextUid
    }

    constructor (cfg: Config)
      ensures Valid() && this.cfg == cfg && steps == [] && at == INIT && events == []
    {
      this.cfg := cfg;
      dirs, queue, lastStart, lastAnyStart, clock, nextUid := map[], [], map[], 0, 0.0, 0;
      at, steps, events := INIT, [], [];
    }

    /** Records that the fields have just taken step l. */
    ghost method Record(l: Label)
      requires Agrees(Apply(cfg, at, l)) && Reached(cfg, steps, at)
      modifies `at, `steps
      ensures Valid() && steps == old(steps) + [l] && at == Apply(cfg, old(at), l)
    {
      ReachedStep(cfg, steps, at, l);
      at, steps := Apply(cfg, at, l), steps + [l];
    }

    // -------------------------------------------------------------- request threads

    method CreateJobRecord(request: CreateRequest) returns (r: Result<Job, RequestError>)
      requires Valid()
      modifies `dirs, `nextUid, `at, `steps
      ensures Valid() && steps == old(steps) + [Create(request)]
      ensures at == Apply(cfg, old(at), Create(request))
      ensures r == Err(BadDataset) <==> !(1 <= request.datasetId <= 3)
      ensures r == Err(JobExists) <==> 1 <= request.datasetId <= 3 && request.jobId in old(dirs)
      ensures r.Ok? <==> 1 <= request.datasetId <= 3 && request.jobId !in old(dirs)
      ensures r.Ok? ==>
        && r.value == Job(request.jobId, old(nextUid), PendingUpload, request.datasetId, clock.Floor, clock.Floor,
                          request.details, request.commitments, 0, None, "", 0, None)
        && dirs == old(dirs)[request.jobId := JobDir(r.value, map[])] && nextUid == old(nextUid) + 1
        && at.log.creates == old(at.log.creates) + [CreateRecord(request, clock.Floor)]
      ensures r.Err? ==> at == old(at)
    {
      if !ValidDataset(request.datasetId) {
        Record(Create(request));
        return Err(BadDataset);
      }
      if request.jobId in dirs {
        Record(Create(request));
        return Err(JobExists);
      }
      var now := clock.Floor;
      var job := Job(request.jobId, nextUid, PendingUpload, request.datasetId, now, now,
                     request.details, request.commitments, 0, None, "", 0, None);
      dirs := dirs[request.jobId := JobDir(job, map[])];
      nextUid := nextUid + 1;
      Record(Create(request));
      return Ok(job);
    }

    /** The file is written as soon as job and name are known to be right; only then its hash is looked
        at. */
    method ReceiveArtifact(id: JobId, artifact: Option<Artifact>, data: Data) returns (r: Result<Job, RequestError>)
      requires Valid()
      modifies `dirs, `queue, `at, `steps
      ensures Valid() && steps == old(steps) + [Upload(id, artifact, data)]
      ensures at == Apply(cfg, old(at), Upload(id, artifact, data))
      ensures r == Err(UnknownJob) <==> id !in old(dirs)
      ensures id in old(dirs) && !old(dirs)[id].record.status.PendingUpload? ==>
        r == Err(NotAwaitingUpload(old(dirs)[id].record.status))
      ensures HasStatus(old(at), id, PendingUpload) && artifact.None? ==> r == Err(UnknownArtifact)
      ensures
        if !HasStatus(old(at), id, PendingUpload) || artifact.None? then r.Err? && at == old(at)
        else
          && id in dirs && dirs == old(dirs)[id := dirs[id]]
          && dirs[id].files == old(dirs)[id].files[artifact.value := data]
          && at.log.uploads
             == old(at.log.uploads) + [UploadRecord(old(dirs)[id].record.uid, artifact.value, data, r.Ok?)]
          && if FailsHash(cfg, old(dirs)[id].record.commitments, artifact.value, data) then
               r == Err(HashMismatch) && dirs[id].record == old(dirs)[id].record && queue == old(queue)
             else
               && r == Ok(dirs[id].record)
               && var ready := ReadyToQueue(dirs[id].files, old(dirs)[id].record.commitments);
               && dirs[id].record == old(dirs)[id].record.(
                    updatedAt := clock.Floor, status := if ready then Queued else PendingUpload)
               && queue == (if ready then old(queue) + [id] else old(queue))
    {
      if id !in dirs {
        Record(Upload(id, artifact, data));
        return Err(UnknownJob);
      }
      var job := dirs[id].record;
      if !job.status.PendingUpload? {
        Record(Upload(id, artifact, data));
        return Err(NotAwaitingUpload(job.status));
      }
      if artifact.None? {
        Record(Upload(id, artifact, data));
        return Err(UnknownArtifact);
      }
      dirs := dirs[id := JobDir(job, dirs[id].files[artifact.value := data])];
      var expected := job.commitments.For(artifact.value);
      if expected != "" && cfg.sha256Hex(data) != expected {
        Record(Upload(id, artifact, data));
        return Err(HashMismatch);
      }
      job := job.(updatedAt := clock.Floor);
      var allRequired := Model in dirs[id].files && Weights in dirs[id].files;
      if allRequired && job.commitments.preprocessing != "" {
        allRequired := Preprocessing in dirs[id].files;
      }
      if allRequired {
        job := job.(status := Queued);
        dirs := dirs[id := JobDir(job, dirs[id].files)];
        queue := queue + [id];
      } else {
        dirs := dirs[id := JobDir(job, dirs[id].files)];
      }
      Record(Upload(id, artifact, data));
      return Ok(job);
    }

    /** What request threads may do while the scheduler holds no lock. */
    method Interfere()
      requires Valid()
      modifies `dirs, `queue, `nextUid, `at, `steps
      ensures Valid() && OnlyAdds(old(steps), steps, false) && EnvironmentOnly(old(at), at)
    {
      var n: nat := *;
      while n > 0
        invariant Valid() && OnlyAdds(old(steps), steps, false) && EnvironmentOnly(old(at), at)
      {
        if * {
          var request: CreateRequest := *;
          RequestsLeaveScheduler(cfg, at, Create(request));
          var _ := CreateJobRecord(request);
        } else {
          var id, artifact, data: Data := *, *, *;
          RequestsLeaveScheduler(cfg, at, Upload(id, artifact, data));
          var _ := ReceiveArtifact(id, artifact, data);
        }
        n := n - 1;
      }
    }

    // -------------------------------------------------------------- time and VMs

    method Sleep(seconds: real)
      requires Valid() && seconds >= 0.0
      modifies `dirs, `queue, `nextUid, `clock, `at, `steps
      ensures Valid() && OnlyAdds(old(steps), steps, false)
      ensures EnvironmentOnly(old(at), at) && clock == old(clock) + seconds
    {
      clock := clock + seconds;
      Record(Advance(seconds));
      Interfere();
    }

    /** Something that takes a while, up to a limit, and succeeds or not. */
    method Attempt(limit: real) returns (ok: bool)
      requires Valid() && limit >= 0.0
      modifies `dirs, `queue, `nextUid, `clock, `at, `steps
      ensures Valid() && OnlyAdds(old(steps), steps, false)
      ensures EnvironmentOnly(old(at), at) && old(clock) <= clock <= old(clock) + limit
    {
      var seconds: real := *;
      Sleep(if 0.0 <= seconds <= limit then seconds else 0.0);
      ok := *;
    }

    method VmIsHealthy(endpoint: Endpoint) returns (ok: bool)
      requires Valid()
      modifies `dirs, `queue, `nextUid, `clock, `at, `steps, `events
      ensures Valid() && OnlyAdds(old(steps), steps, false)
      ensures EnvironmentOnly(old(at), at) && old(clock) <= clock <= old(clock) + PROBE_SECONDS
      ensures events == old(events) + [Probed(endpoint, ok)]
    {
      ok := Attempt(PROBE_SECONDS);
      events := events + [Probed(endpoint, ok)];
    }

    method RunVmCommand(command: Command) returns (ok: bool)
      requires Valid()
      modifies `dirs, `queue, `nextUid, `clock, `at, `steps, `events
      ensures Valid() && OnlyAdds(old(steps), steps, false)
      ensures EnvironmentOnly(old(at), at) && old(clock) <= clock <= old(clock) + COMMAND_SECONDS
      ensures events == old(events) + [Ran(command, ok)]
    {
      ok := Attempt(COMMAND_SECONDS);
      events := events + [Ran(command, ok)];
    }

    /** Whether a start or stop command is configured. */
    method IsConfigured(command: Command) returns (yes: bool)
      modifies `events
      ensures events == if yes then old(events) else old(events) + [Unconfigured(command)]
    {
      yes := *;
      if !yes {
        events := events + [Unconfigured(command)];
      }
    }

    /** Requests a stop; unless no stop command is configured, then sleeps exactly the stop wait. */
    method StopVm() returns (ok: bool, ghost slept: Option<int>)
      requires Valid() && cfg.poll > 0
      modifies `dirs, `queue, `nextUid, `clock, `at, `steps, `events
      ensures Valid() && OnlyAdds(old(steps), steps, false) && EnvironmentOnly(old(at), at)
      ensures slept.None? ==> !ok && clock == old(clock) && events == old(events) + [Unconfigured(StopOf(Gpu))]
      ensures slept.Some? ==>
        && slept.value == (if cfg.stopWait > 0 then cfg.stopWait else 0)
        && old(clock) + slept.value as real <= clock <= old(clock) + COMMAND_SECONDS + slept.value as real
        && events == old(events) + [Ran(StopOf(Gpu), ok)]
    {
      var configured := IsConfigured(StopOf(Gpu));
      if !configured {
        return false, None;
      }
      ok := RunVmCommand(StopOf(Gpu));
      var waited := 0;
      ghost var commanded, total := clock, 0;
      StopWaitIsExact(cfg.stopWait, cfg.poll, 0);
      while waited < cfg.stopWait
        invariant Valid() && OnlyAdds(old(steps), steps, false) && EnvironmentOnly(old(at), at)
        invariant clock == commanded + total as real
        invariant total + StopSleeps(cfg.stopWait, cfg.poll, waited) == StopSleeps(cfg.stopWait, cfg.poll, 0)
        invariant events == old(events) + [Ran(StopOf(Gpu), ok)]
        decreases cfg.stopWait - waited
      {
        var pause := Min(cfg.poll, cfg.stopWait - waited);
        Sleep(pause as real);
        total := total + pause;
        waited := waited + cfg.poll;
      }
      slept := Some(total);
    }

    /** Probes until healthy or past the deadline, overshooting it by a probe and a poll at most. */
    method WaitForVm(target: Target, timeout: int) returns (ok: bool)
      requires Valid() && cfg.poll > 0
      modifies `dirs, `queue, `nextUid, `clock, `at, `steps, `events
      ensures Valid() && OnlyAdds(old(steps), steps, false) && EnvironmentOnly(old(at), at)
      ensures !ok ==> clock >= old(clock) + timeout as real
      ensures old(clock) <= clock
      ensures timeout > 0 ==>
        clock < old(clock) + timeout as real + PROBE_SECONDS + (if ok then 0.0 else cfg.poll as real)
      ensures timeout <= 0 ==> clock == old(clock)
      ensures OnlyProbed(old(events), events, target)
      ensures if ok then FoundHealthy(old(events), events, target) else NoneHealthy(old(events), events)
    {
      var deadline := clock + timeout as real;
      while clock < deadline
        invariant Valid() && OnlyAdds(old(steps), steps, false) && EnvironmentOnly(old(at), at)
        invariant old(clock) <= clock
        invariant timeout <= 0 ==> clock == old(clock)
        invariant timeout > 0 ==> clock < deadline + PROBE_SECONDS + cfg.poll as real
        invariant OnlyProbed(old(events), events, target) && NoneHealthy(old(events), events)
        decreases deadline - clock
      {
        ghost var before := events;
        ok := VmIsHealthy(HealthUrl(target));
        assert events[..|events| - 1] == before;
        if ok {
          return true;
        }
        Sleep(cfg.poll as real);
      }
      return false;
    }

    // -------------------------------------------------------------- provisioning

    /** Honours the cooldown, runs the start command, and saves the timestamps. None: skipped. When a
        command was run its outcome is still to be recorded together with the job. */
    method RequestVmStart(target: Target) returns (outcome: Option<StartOutcome>)
      requires Valid() && at.pc.Provisioning? && at.pc.phase == Awaiting(target)
      modifies this
      ensures OnlyAdds(old(steps), steps, true)
      ensures old(clock) <= clock <= old(clock) + COMMAND_SECONDS
      ensures
        var last := if target in old(lastStart) then old(lastStart)[target] else old(lastAnyStart);
        outcome.None? <==> old(clock).Floor - last < cfg.cooldown
      ensures outcome.None? ==>
        && Valid() && at.pc.Idle? && steps == old(steps) + [BeginStart] && at == Apply(cfg, old(at), BeginStart)
        && events == old(events)
      ensures outcome.Some? ==>
        && at.pc == Provisioning(old(at.pc.job), Starting(target, old(clock).Floor), old(at.pc.startsThisCall))
        && lastStart == old(lastStart)[target := old(clock).Floor] && lastAnyStart == old(clock).Floor
        && Agrees(at.(lastStart := lastStart, lastAnyStart := lastAnyStart)) && at.lastStart == old(lastStart)
        && Reached(cfg, steps, at)
        && events == old(events) + [StartEvent(target, outcome.value)]
    {
      var now := clock.Floor;
      var last := if target in lastStart then lastStart[target] else lastAnyStart;
      if now - last < cfg.cooldown {
        Record(BeginStart);
        return None;
      }
      Record(BeginStart);
      var issued := IssueStart(target);
      lastStart := lastStart[target := now];
      lastAnyStart := now;
      return Some(issued);
    }

    method IssueStart(target: Target) returns (outcome: StartOutcome)
      requires Valid()
      modifies `dirs, `queue, `nextUid, `clock, `at, `steps, `events
      ensures Valid() && OnlyAdds(old(steps), steps, false) && EnvironmentOnly(old(at), at)
      ensures old(clock) <= clock <= old(clock) + COMMAND_SECONDS
      ensures events == old(events) + [StartEvent(target, outcome)]
    {
      var configured := IsConfigured(StartOf(target));
      if !configured {
        return NotConfigured;
      }
      var ok := RunVmCommand(StartOf(target));
      return if ok then Accepted else Failed;
    }

    /** Writes the job back as the caller knows it. */
    method SaveJob(job: Job)
      modifies `dirs
      ensures dirs == old(dirs)[job.id := JobDir(job, if job.id in old(dirs) then old(dirs)[job.id].files else map[])]
    {
      dirs := dirs[job.id := JobDir(job, if job.id in dirs then dirs[job.id].files else map[])];
    }

    /** After a start command: an accepted GPU start is counted and saved with the job. */
    method FinishStart(job: Job, target: Target, outcome: StartOutcome) returns (job': Job)
      requires Reached(cfg, steps, at) && InStart(at.pc) && at.pc.job == job && at.pc.phase.target == target
      requires
        var now := at.pc.phase.now;
        Agrees(at.(lastStart := at.lastStart[target := now], lastAnyStart := now))
      modifies `dirs, `at, `steps
      ensures Valid() && steps == old(steps) + [EndStart(outcome)]
      ensures at.log.starts == old(at.log.starts) + [StartRecord(job.uid, target, old(at.pc.phase.now), outcome)]
      ensures !outcome.Accepted? ==> at.pc.Idle? && job' == job && dirs == old(dirs)
      ensures outcome.Accepted? && target.Gpu? ==>
        && job' == job.(gpuAttempts := job.gpuAttempts + 1, target := Some(Gpu))
        && at.pc == Provisioning(job', Waiting(Gpu, clock + cfg.gpuBootTimeout as real), old(at.pc.startsThisCall) + 1)
        && dirs == old(dirs)[job.id := JobDir(job', if job.id in old(dirs) then old(dirs)[job.id].files else map[])]
      ensures outcome.Accepted? && target.Cpu? ==>
        && job' == job && dirs == old(dirs)
        && at.pc == Provisioning(job, Waiting(Cpu, clock + cfg.cpuBootTimeout as real), old(at.pc.startsThisCall))
    {
      job' := job;
      if outcome.Accepted? && target.Gpu? {
        job' := job.(gpuAttempts := job.gpuAttempts + 1, target := Some(Gpu));
        SaveJob(job');
      }
      Record(EndStart(outcome));
    }

    /** Records how the boot wait ended. */
    ghost method FinishWait(up: bool)
      requires Valid() && at.pc.Provisioning? && at.pc.phase.Waiting?
      requires !up ==> clock >= at.pc.phase.deadline
      modifies `at, `steps
      ensures Valid() && steps == old(steps) + [if up then WaitHealthy else WaitTimedOut]
      ensures up ==> Chosen(cfg, at.pc, old(at.pc.job), old(at.pc.phase.target))
      ensures !up && old(at.pc.phase.target).Cpu? ==> at.pc.Idle?
      ensures !up && old(at.pc.phase.target).Gpu? ==>
        var job := old(at.pc.job);
        at.pc == Provisioning(job, if job.gpuAttempts < cfg.maxGpuAttempts then Awaiting(Gpu) else CpuEntry,
                              old(at.pc.startsThisCall))
    {
      Record(if up then WaitHealthy else WaitTimedOut);
    }

    /** The CPU: used if it is up, else started and waited for, unless it is not configured. */
    method TryCpuFallback(job: Job) returns (choice: Option<Choice>)
      requires Valid() && cfg.poll > 0 && at.pc.Provisioning? && at.pc.job == job && at.pc.phase.CpuEntry?
      modifies this
      ensures Valid() && OnlyAdds(old(steps), steps, true)
      ensures choice.Some? ==>
        && choice.value.target.Cpu? && OwnTarget(cfg, choice.value)
        && at.pc == Rechecking(job.(target := Some(Cpu)), choice.value)
        && FoundHealthy(old(events), events, Cpu)
      ensures choice.None? ==> at.pc.Idle? && NoneHealthy(old(events), events)
      ensures cfg.cpuAddr == "" || cfg.cpuDigest == "" ==> choice.None? && events == old(events)
      ensures old(clock) <= clock <= old(clock) + CpuTime(cfg)
    {
      var current := EnterCpuTarget(job);
      if current.None? {
        return None;
      }
      var healthy := VmIsHealthy(HealthUrl(Cpu));
      assert events[..|events| - 1] == old(events);
      FinishCpuProbe(healthy);
      if healthy {
        return Some(ChoiceFor(cfg, Cpu));
      }
      ghost var probed := events;
      choice := BootCpu(current.value);
      if choice.Some? {
        FoundHealthyThen(old(events), probed, events, Cpu);
      } else {
        NoneHealthyThen(old(events), probed, events);
      }
    }

    /** Points the job at the CPU target, unless that is not configured. */
    method EnterCpuTarget(job: Job) returns (current: Option<Job>)
      requires Valid() && at.pc.Provisioning? && at.pc.job == job && at.pc.phase.CpuEntry?
      modifies `dirs, `at, `steps
      ensures Valid() && steps == old(steps) + [EnterCpu]
      ensures current == if cfg.cpuAddr == "" || cfg.cpuDigest == "" then None else Some(job.(target := Some(Cpu)))
      ensures current.None? ==> at.pc.Idle? && dirs == old(dirs)
      ensures current.Some? ==>
        && at.pc == Provisioning(current.value, CpuProbing, old(at.pc.startsThisCall))
        && dirs == old(dirs)[job.id := JobDir(current.value,
                                              if job.id in old(dirs) then old(dirs)[job.id].files else map[])]
    {
      if cfg.cpuAddr == "" || cfg.cpuDigest == "" {
        Record(EnterCpu);
        return None;
      }
      current := Some(job.(target := Some(Cpu)));
      SaveJob(current.value);
      Record(EnterCpu);
    }

    ghost method FinishCpuProbe(healthy: bool)
      requires Valid() && at.pc.Provisioning? && at.pc.phase.CpuProbing?
      modifies `at, `steps
      ensures Valid() && steps == old(steps) + [ProbeCpu(healthy)]
      ensures if healthy then Chosen(cfg, at.pc, old(at.pc.job), Cpu)
              else at.pc == Provisioning(old(at.pc.job), Awaiting(Cpu), old(at.pc.startsThisCall))
    {
      Record(ProbeCpu(healthy));
    }

    /** The second half of the fallback: request a start and wait for the boot. */
    method BootCpu(job: Job) returns (choice: Option<Choice>)
      requires Valid() && cfg.poll > 0 && cfg.cpuAddr != ""
      requires at.pc.Provisioning? && at.pc.job == job && at.pc.phase == Awaiting(Cpu)
      modifies this
      ensures Valid() && OnlyAdds(old(steps), steps, true)
      ensures choice.Some? ==>
        && choice.value.target.Cpu? && OwnTarget(cfg, choice.value) && at.pc == Rechecking(job, choice.value)
        && FoundHealthy(old(events), events, Cpu)
      ensures choice.None? ==> at.pc.Idle? && NoneHealthy(old(events), events)
      ensures old(clock) <= clock <= old(clock) + COMMAND_SECONDS + BootWait(cfg, cfg.cpuBootTimeout)
    {
      var started := RequestVmStart(Cpu);
      if started.None? {
        return None;
      }
      ghost var issued := events;
      var _ := FinishStart(job, Cpu, started.value);
      if !started.value.Accepted? {
        return None;
      }
      var up := WaitForVm(Cpu, cfg.cpuBootTimeout);
      FinishWait(up);
      if up {
        FoundHealthyThen(old(events), issued, events, Cpu);
        return Some(ChoiceFor(cfg, Cpu));
      }
      NoneHealthyThen(old(events), issued, events);
      return None;
    }

    /** The GPU first, by counted stop-start rounds; then the CPU. What is chosen was found healthy by the
        call's last probe, and nothing was before. */
    method ProvisionProcessingTee(job: Job) returns (choice: Option<Choice>)
      requires Valid() && cfg.poll > 0 && at.pc == Provisioning(job, Entry, 0)
      modifies this
      ensures Valid() && OnlyAdds(old(steps), steps, true)
      ensures choice.Some? ==>
        && at.pc.Rechecking? && at.pc.choice == choice.value && SameButProgress(job, at.pc.job)
        && OwnTarget(cfg, choice.value) && choice.value.addr != ""
        && FoundHealthy(old(events), events, choice.value.target)
      ensures choice.None? ==> at.pc.Idle? && (cfg.gpuAddr == "" || NoneHealthy(old(events), events))
      ensures old(events) <= events
      ensures old(clock) <= clock <= old(clock) + ProvisioningTime(cfg, job)
    {
      if job.gpuAttempts >= cfg.maxGpuAttempts {
        Record(GpuExhausted);
        choice := TryCpuFallback(job);
        return;
      }
      var healthy := ProbeGpuFirst(job);
      if healthy {
        return if cfg.gpuAddr == "" then None else Some(ChoiceFor(cfg, Gpu));
      }
      ghost var probed := events;
      choice := GpuThenCpu(job);
      if choice.Some? {
        FoundHealthyThen(old(events), probed, events, choice.value.target);
      } else if cfg.gpuAddr != "" {
        NoneHealthyThen(old(events), probed, events);
      }
    }

    /** A healthy GPU is taken at once, without an attempt. */
    method ProbeGpuFirst(job: Job) returns (healthy: bool)
      requires Valid() && at.pc == Provisioning(job, Entry, 0) && job.gpuAttempts < cfg.maxGpuAttempts
      modifies `dirs, `queue, `nextUid, `clock, `at, `steps, `events
      ensures Valid() && OnlyAdds(old(steps), steps, true)
      ensures old(clock) <= clock <= old(clock) + PROBE_SECONDS
      ensures
        if healthy then
          && Chosen(cfg, at.pc, job.(target := Some(Gpu)), Gpu) && FoundHealthy(old(events), events, Gpu)
          && job.id in dirs && dirs[job.id].record == job.(target := Some(Gpu))
        else at.pc == Provisioning(job, Awaiting(Gpu), 0) && NoneHealthy(old(events), events)
    {
      healthy := VmIsHealthy(HealthUrl(Gpu));
      assert events[..|events| - 1] == old(events);
      if healthy {
        SaveJob(job.(target := Some(Gpu)));
      }
      Record(ProbeGpu(healthy));
    }

    method GpuThenCpu(job: Job) returns (choice: Option<Choice>)
      requires Valid() && cfg.poll > 0 && at.pc == Provisioning(job, Awaiting(Gpu), 0)
      requires job.gpuAttempts < cfg.maxGpuAttempts
      modifies this
      ensures Valid() && OnlyAdds(old(steps), steps, true)
      ensures choice.Some? ==>
        && at.pc.Rechecking? && at.pc.choice == choice.value && SameButProgress(job, at.pc.job)
        && OwnTarget(cfg, choice.value) && choice.value.addr != ""
        && FoundHealthy(old(events), events, choice.value.target)
      ensures choice.None? ==> at.pc.Idle? && (cfg.gpuAddr == "" || NoneHealthy(old(events), events))
      ensures old(events) <= events
      ensures old(clock) <= clock <= old(clock) + Rounds(AttemptsLeft(cfg, job), RoundTime(cfg)) + CpuTime(cfg)
    {
      var current, outcome := GpuRounds(job);
      if outcome.Healthy? {
        return if cfg.gpuAddr == "" then None else Some(ChoiceFor(cfg, Gpu));
      }
      if outcome.NotIssued? {
        return None;
      }
      ghost var tried := events;
      choice := TryCpuFallback(current);
      if choice.Some? {
        FoundHealthyThen(old(events), tried, events, Cpu);
      } else {
        NoneHealthyThen(old(events), tried, events);
      }
    }

    /** The GPU loop: rounds until healthy, not issued, or the attempts are used up. */
    method GpuRounds(job: Job) returns (current: Job, outcome: RoundOutcome)
      requires Valid() && cfg.poll > 0 && job.gpuAttempts < cfg.maxGpuAttempts
      requires at.pc.Provisioning? && at.pc.job == job && at.pc.phase == Awaiting(Gpu)
      modifies this
      ensures Valid() && OnlyAdds(old(steps), steps, true)
      ensures outcome.NotIssued? ==> at.pc.Idle? && (EndsRefused(old(steps), steps) || EndsSkipped(old(steps), steps))
      ensures outcome.NotIssued? && !EndsRefused(old(steps), steps) && cfg.gpuBootTimeout >= cfg.cooldown ==>
        current == job
      ensures outcome.Healthy? ==> Chosen(cfg, at.pc, current, Gpu)
      ensures outcome.TimedOut? ==> at.pc.Provisioning? && at.pc.job == current && at.pc.phase.CpuEntry?
      ensures outcome.TimedOut? ==> current.gpuAttempts == cfg.maxGpuAttempts
      ensures SameButProgress(job, current)
      ensures if outcome.Healthy? then FoundHealthy(old(events), events, Gpu) else NoneHealthy(old(events), events)
      ensures old(clock) <= clock <= old(clock) + Rounds(AttemptsLeft(cfg, job), RoundTime(cfg))
    {
      current, outcome := job, TimedOut;
      while current.gpuAttempts < cfg.maxGpuAttempts
        invariant Valid() && OnlyAdds(old(steps), steps, true) && NoneHealthy(old(events), events)
        invariant outcome.TimedOut? && at.pc.Provisioning? && at.pc.job == current && SameButProgress(job, current)
        invariant current.gpuAttempts <= cfg.maxGpuAttempts
        invariant at.pc.phase == if current.gpuAttempts < cfg.maxGpuAttempts then Awaiting(Gpu) else CpuEntry
        invariant at.pc.startsThisCall > 0 || current == job
        invariant old(clock) <= clock
        invariant clock + Rounds(AttemptsLeft(cfg, current), RoundTime(cfg))
               <= old(clock) + Rounds(AttemptsLeft(cfg, job), RoundTime(cfg))
        decreases cfg.maxGpuAttempts - current.gpuAttempts
      {
        assert Rounds(AttemptsLeft(cfg, current), RoundTime(cfg)) >= RoundTime(cfg);
        ghost var tried := events;
        current, outcome := ProvisionRound(current);
        if outcome.Healthy? {
          FoundHealthyThen(old(events), tried, events, Gpu);
          return;
        }
        NoneHealthyThen(old(events), tried, events);
        if outcome.NotIssued? {
          return;
        }
      }
    }

    /** One round of the GPU loop. Only an accepted start consumes an attempt, and a GPU that does not come
        up is stopped. */
    method ProvisionRound(job: Job) returns (job': Job, outcome: RoundOutcome)
      requires Valid() && cfg.poll > 0 && job.gpuAttempts < cfg.maxGpuAttempts
      requires at.pc.Provisioning? && at.pc.job == job && at.pc.phase == Awaiting(Gpu)
      modifies this
      ensures Valid() && OnlyAdds(old(steps), steps, true)
      ensures old(clock) <= clock <= old(clock) + RoundTime(cfg)
      ensures outcome.NotIssued? ==> at.pc.Idle? && (EndsRefused(old(steps), steps) || EndsSkipped(old(steps), steps))
      ensures outcome.NotIssued? && !EndsRefused(old(steps), steps) && cfg.gpuBootTimeout >= cfg.cooldown ==>
        old(at.pc.startsThisCall) == 0
      ensures job' == if outcome.NotIssued? then job else job.(gpuAttempts := job.gpuAttempts + 1, target := Some(Gpu))
      ensures outcome.Healthy? ==> Chosen(cfg, at.pc, job', Gpu)
      ensures outcome.TimedOut? ==>
        && at.pc.Provisioning? && at.pc.job == job' && at.pc.startsThisCall == old(at.pc.startsThisCall) + 1
        && at.pc.phase == if job'.gpuAttempts < cfg.maxGpuAttempts then Awaiting(Gpu) else CpuEntry
      ensures !outcome.NotIssued? <==> GpuStarted(old(events), events)
      ensures if outcome.Healthy? then FoundHealthy(old(events), events, Gpu) else NoneHealthy(old(events), events)
      ensures outcome.TimedOut? ==> StopAsked(events[|events| - 1])
    {
      var accepted;
      job', accepted := StartRound(job);
      if !accepted {
        return job', NotIssued;
      }
      ghost var issued := events;
      assert issued[|issued| - 1] == Ran(StartOf(Gpu), true);
      var up := WaitForVm(Gpu, cfg.gpuBootTimeout);
      assert events[|issued| - 1] == Ran(StartOf(Gpu), true);
      FinishWait(up);
      if up {
        FoundHealthyThen(old(events), issued, events, Gpu);
        return job', Healthy;
      }
      NoneHealthyThen(old(events), issued, events);
      var _, _ := StopVm();
      assert events[|issued| - 1] == Ran(StartOf(Gpu), true);
      return job', TimedOut;
    }

    /** The start of a round; an attempt is counted if it is accepted. */
    method StartRound(job: Job) returns (job': Job, accepted: bool)
      requires Valid() && cfg.poll > 0
      requires at.pc.Provisioning? && at.pc.job == job && at.pc.phase == Awaiting(Gpu)
      modifies this
      ensures Valid() && OnlyAdds(old(steps), steps, true) && NoneHealthy(old(events), events)
      ensures old(clock) <= clock <= old(clock) + StopTime(cfg) + COMMAND_SECONDS
      ensures accepted <==> GpuStarted(old(events), events)
      ensures accepted ==>
        && job' == job.(gpuAttempts := job.gpuAttempts + 1, target := Some(Gpu))
        && at.pc == Provisioning(job', Waiting(Gpu, clock + cfg.gpuBootTimeout as real), old(at.pc.startsThisCall) + 1)
        && |events| > |old(events)| && events[|events| - 1] == Ran(StartOf(Gpu), true)
      ensures !accepted ==>
        job' == job && at.pc.Idle? && (EndsRefused(old(steps), steps) || EndsSkipped(old(steps), steps))
      ensures !accepted && !EndsRefused(old(steps), steps) && cfg.gpuBootTimeout >= cfg.cooldown ==>
        old(at.pc.startsThisCall) == 0
    {
      var started := RestartGpu(job);
      if started.None? {
        return job, false;
      }
      job' := FinishStart(job, Gpu, started.value);
      return job', started.value.Accepted?;
    }

    /** A retry asks the VM to stop first; the first attempt of a job does not. */
    method RestartGpu(job: Job) returns (outcome: Option<StartOutcome>)
      requires Valid() && cfg.poll > 0 && at.pc.Provisioning? && at.pc.job == job && at.pc.phase == Awaiting(Gpu)
      modifies this
      ensures OnlyAdds(old(steps), steps, true)
      ensures old(clock) <= clock <= old(clock) + StopTime(cfg) + COMMAND_SECONDS
      ensures outcome.None? ==> Valid() && at.pc.Idle? && EndsSkipped(old(steps), steps)
      ensures outcome.None? && cfg.gpuBootTimeout >= cfg.cooldown ==> old(at.pc.startsThisCall) == 0
      ensures outcome.Some? ==>
        && at.pc.Provisioning? && at.pc.phase.Starting? && at.pc.phase.target.Gpu?
        && at.pc.job == job && at.pc.startsThisCall == old(at.pc.startsThisCall)
        && Agrees(at.(lastStart := at.lastStart[Gpu := at.pc.phase.now], lastAnyStart := at.pc.phase.now))
        && Reached(cfg, steps, at)
      ensures
        var stops := if job.gpuAttempts > 0 then 1 else 0;
        var starts := if outcome.Some? then 1 else 0;
        && |events| == |old(events)| + stops + starts && old(events) <= events
        && (stops == 1 ==> StopAsked(events[|old(events)|]))
        && (starts == 1 ==> events[|events| - 1] == StartEvent(Gpu, outcome.value))
    {
      if job.gpuAttempts > 0 {
        var _, _ := StopVm();
      }
      RetryIssued(cfg, steps, at);
      outcome := RequestVmStart(Gpu);
    }

    // -------------------------------------------------------------- the scheduler

    method ListJobs() returns (ids: seq<JobId>)
      ensures NoDuplicates(ids) && forall id :: id in ids <==> id in dirs
    {
      ids := [];
      var rest := dirs.Keys;
      while rest != {}
        invariant NoDuplicates(ids) && rest <= dirs.Keys
        invariant forall id :: id in ids <==> id in dirs.Keys - rest
        decreases rest
      {
        var id :| id in rest;
        assert id !in ids;
        ids := ids + [id];
        rest := rest - {id};
      }
    }

    /** Tries to remove exactly the terminal jobs past retention, each once; those stay whose directory
        cannot be removed. */
    method CleanupOldJobs() returns (ghost tried: seq<JobId>, ghost removed: set<JobId>)
      requires Valid() && at.pc.Idle?
      modifies `dirs, `at, `steps, `events
      ensures Valid() && old(steps) <= steps && at.pc.Cleaned?
      ensures events == old(events) + Removals(tried, removed) && NoDuplicates(tried)
      ensures forall id :: id in tried <==> id in old(dirs) && Expired(cfg, old(dirs)[id].record, clock)
      ensures dirs == old(dirs) - removed && forall id <- removed :: id in tried
    {
      Record(BeginCleanup);
      var ids := ListJobs();
      tried, removed := RemoveExpired(ids);
      Record(EndCleanup);
    }

    method RemoveExpired(ids: seq<JobId>) returns (ghost tried: seq<JobId>, ghost removed: set<JobId>)
      requires Valid() && at.pc == Cleaning(clock) && NoDuplicates(ids) && forall id <- ids :: id in dirs
      modifies `dirs, `at, `steps, `events
      ensures Valid() && old(steps) <= steps && at.pc == Cleaning(clock)
      ensures events == old(events) + Removals(tried, removed) && NoDuplicates(tried)
      ensures TriedUpTo(cfg, old(dirs), clock, ids, tried)
      ensures dirs == old(dirs) - removed && forall id <- removed :: id in tried
    {
      tried, removed := [], {};
      for i := 0 to |ids|
        invariant Valid() && old(steps) <= steps && at.pc == Cleaning(clock)
        invariant events == old(events) + Removals(tried, removed) && NoDuplicates(tried)
        invariant TriedUpTo(cfg, old(dirs), clock, ids[..i], tried)
        invariant dirs == old(dirs) - removed && forall id <- removed :: id in tried
      {
        NextTried(cfg, old(dirs), clock, ids, i, tried);
        ghost var asked, ok := CleanUpJob(ids[i]);
        if asked {
          RemovalsAppend(tried, removed, ids[i], ok);
          tried := tried + [ids[i]];
          removed := if ok then removed + {ids[i]} else removed;
        }
      }
      assert ids[..|ids|] == ids;
    }

    /** One job of the cleanup. */
    method CleanUpJob(id: JobId) returns (ghost asked: bool, ghost ok: bool)
      requires Valid() && at.pc == Cleaning(clock) && id in dirs
      modifies `dirs, `at, `steps, `events
      ensures Valid() && old(steps) <= steps && at.pc == old(at.pc)
      ensures asked <==> Expired(cfg, old(dirs)[id].record, clock)
      ensures events == if asked then old(events) + [Removed(id, ok)] else old(events)
      ensures dirs == if asked && ok then old(dirs) - {id} else old(dirs)
    {
      var job := dirs[id].record;
      var age := clock - job.updatedAt as real;
      if !(job.status.Complete? || job.status.Rejected?) || age < cfg.retention as real {
        return false, false;
      }
      var removed := RemoveJob(id);
      return true, removed;
    }

    /** Removes a directory, if that can be done. */
    method RemoveJob(id: JobId) returns (ok: bool)
      requires Valid() && at.pc.Cleaning? && id in dirs && Expired(cfg, dirs[id].record, at.pc.startedAt)
      modifies `dirs, `at, `steps, `events
      ensures Valid() && old(steps) <= steps && at.pc == old(at.pc)
      ensures events == old(events) + [Removed(id, ok)]
      ensures dirs == if ok then old(dirs) - {id} else old(dirs)
      ensures at.log.deletions
           == old(at.log.deletions) + if ok then [DeletionRecord(old(dirs)[id].record, clock)] else []
    {
      ok := *;
      events := events + [Removed(id, ok)];
      if ok {
        dirs := dirs - {id};
        Record(Delete(id));
      }
    }

    /** Lists the dispatched jobs, each once. */
    method ListDispatched() returns (todo: seq<Job>, ghost order: seq<JobId>)
      requires forall id <- dirs :: dirs[id].record.id == id
      ensures NoDuplicates(order) && |todo| == |order|
      ensures forall k :: 0 <= k < |order| ==> order[k] in dirs && todo[k] == dirs[order[k]].record
      ensures forall id :: id in order <==> id in dirs && dirs[id].record.status.Dispatched?
    {
      var ids := ListJobs();
      order, todo := [], [];
      for i := 0 to |ids|
        invariant |order| == |todo| && NoDuplicates(order)
        invariant forall k :: 0 <= k < |order| ==> order[k] in dirs && todo[k] == dirs[order[k]].record
        invariant forall id :: id in order <==> id in ids[..i] && dirs[id].record.status.Dispatched?
      {
        assert ids[i] !in ids[..i];
        if dirs[ids[i]].record.status.Dispatched? {
          order := order + [ids[i]];
          todo := todo + [dirs[ids[i]].record];
        }
      }
    }

    /** Lists the dispatched jobs under the lock. There is at most one. */
    method BeginFinalizing() returns (todo: seq<Job>)
      requires Valid() && at.pc.Cleaned?
      modifies `at, `steps
      ensures Valid() && old(steps) <= steps && at.pc == Finalizing(clock.Floor, todo) && at.log == old(at.log)
      ensures |todo| <= 1 && forall j <- todo :: j.id in dirs && dirs[j.id].record == j && j.status.Dispatched?
      ensures forall id <- dirs :: dirs[id].record.status.Dispatched? ==> dirs[id].record in todo
    {
      RecordsNamed(cfg, steps, at);
      ghost var order;
      todo, order := ListDispatched();
      SnapshotIs(cfg, steps, at, order, todo);
      Record(BeginFinalize(order));
    }

    /** Completes the dispatched jobs whose grace is over and whose TEE no longer answers where they were
        assigned. */
    method FinalizeDispatchedJobs() returns (finalized: seq<JobId>)
      requires Valid() && at.pc.Cleaned?
      modifies `dirs, `queue, `nextUid, `clock, `at, `steps, `events
      ensures Valid() && old(steps) <= steps && at.pc.Picking?
      ensures at.log.completed == old(at.log.completed) + finalized
      ensures at.log.marked == old(at.log.marked) && at.log.sends == old(at.log.sends)
      ensures forall id <- old(dirs) :: old(dirs)[id].record.status.Dispatched? ==>
        Finalized(cfg, old(clock).Floor, old(dirs)[id].record, finalized, old(events), events)
      ensures (forall id <- old(dirs) :: !old(dirs)[id].record.status.Dispatched?) ==>
        finalized == [] && events == old(events)
    {
      var now := clock.Floor;
      var todo := BeginFinalizing();
      finalized := FinalizeListed(now, todo);
      Record(EndFinalize);
    }

    method FinalizeListed(now: int, todo: seq<Job>) returns (finalized: seq<JobId>)
      requires Valid() && at.pc == Finalizing(now, todo) && |todo| <= 1
      modifies `dirs, `queue, `nextUid, `clock, `at, `steps, `events
      ensures Valid() && old(steps) <= steps && at.pc == Finalizing(now, [])
      ensures at.log.completed == old(at.log.completed) + finalized
      ensures at.log.marked == old(at.log.marked) && at.log.sends == old(at.log.sends)
      ensures if todo == [] then finalized == [] && events == old(events)
              else Finalized(cfg, now, todo[0], finalized, old(events), events)
    {
      finalized := [];
      for i := 0 to |todo|
        invariant Valid() && old(steps) <= steps && at.pc == Finalizing(now, todo[i..])
        invariant at.log.completed == old(at.log.completed) + finalized
        invariant at.log.marked == old(at.log.marked) && at.log.sends == old(at.log.sends)
        invariant i == 0 ==> finalized == [] && events == old(events)
        invariant i == 1 ==> Finalized(cfg, now, todo[0], finalized, old(events), events)
      {
        var done := FinalizeOne(now, todo[i..]);
        if done {
          finalized := finalized + [todo[i].id];
        }
      }
    }

    /** A job past its grace is probed, and completed exactly if the probe fails. */
    method FinalizeOne(now: int, todo: seq<Job>) returns (done: bool)
      requires Valid() && at.pc == Finalizing(now, todo) && todo != []
      modifies `dirs, `queue, `nextUid, `clock, `at, `steps, `events
      ensures Valid() && old(steps) <= steps && at.pc == Finalizing(now, todo[1..])
      ensures at.log.completed == old(at.log.completed) + if done then [todo[0].id] else []
      ensures at.log.marked == old(at.log.marked) && at.log.sends == old(at.log.sends)
      ensures Finalized(cfg, now, todo[0], if done then [todo[0].id] else [], old(events), events)
      ensures done ==> exists k :: |old(steps)| <= k < |steps| && steps[k] == ProbeAssigned(false)
      ensures done ==>
        && todo[0].id in dirs
        && dirs[todo[0].id].record == todo[0].(status := Complete, updatedAt := now, completedAt := Some(now))
    {
      if now - todo[0].dispatchedAt < cfg.grace {
        Record(SkipYoung);
        return false;
      }
      done := FinalizeOld(now, todo);
    }

    method FinalizeOld(now: int, todo: seq<Job>) returns (done: bool)
      requires Valid() && at.pc == Finalizing(now, todo) && todo != [] && now - todo[0].dispatchedAt >= cfg.grace
      modifies `dirs, `queue, `nextUid, `clock, `at, `steps, `events
      ensures Valid() && old(steps) <= steps && at.pc == Finalizing(now, todo[1..])
      ensures at.log.completed == old(at.log.completed) + if done then [todo[0].id] else []
      ensures at.log.marked == old(at.log.marked) && at.log.sends == old(at.log.sends)
      ensures
        var addr := if todo[0].assignedTee == "" then cfg.gpuAddr else todo[0].assignedTee;
        events == old(events) + [Probed(HealthAt(addr), !done)]
      ensures done ==> exists k :: |old(steps)| <= k < |steps| && steps[k] == ProbeAssigned(false)
      ensures done ==>
        && todo[0].id in dirs
        && dirs[todo[0].id].record == todo[0].(status := Complete, updatedAt := now, completedAt := Some(now))
    {
      var healthy := ProbeAssignee(now, todo);
      ghost var probe := |steps| - 1;
      if healthy {
        return false;
      }
      Interfere();
      done := CommitOne(now, todo);
      assert steps[probe] == ProbeAssigned(false);
    }

    method ProbeAssignee(now: int, todo: seq<Job>) returns (healthy: bool)
      requires Valid() && at.pc == Finalizing(now, todo) && todo != [] && now - todo[0].dispatchedAt >= cfg.grace
      modifies `dirs, `queue, `nextUid, `clock, `at, `steps, `events
      ensures Valid() && old(steps) < steps && steps[|steps| - 1] == ProbeAssigned(healthy)
      ensures at.pc == if healthy then Finalizing(now, todo[1..]) else TeeGone(now, todo)
      ensures at.log.completed == old(at.log.completed) && at.log.marked == old(at.log.marked)
      ensures at.log.sends == old(at.log.sends)
      ensures
        var addr := if todo[0].assignedTee == "" then cfg.gpuAddr else todo[0].assignedTee;
        events == old(events) + [Probed(HealthAt(addr), healthy)]
    {
      healthy := VmIsHealthy(HealthAt(if todo[0].assignedTee == "" then cfg.gpuAddr else todo[0].assignedTee));
      Record(ProbeAssigned(healthy));
    }

    /** The lock window: complete the job if it is still dispatched, which it is. */
    method CommitOne(now: int, todo: seq<Job>) returns (done: bool)
      requires Valid() && at.pc == TeeGone(now, todo) && todo != []
      modifies `dirs, `at, `steps
      ensures Valid() && steps == old(steps) + [CommitFinalize] && at.pc == Finalizing(now, todo[1..]) && done
      ensures at.log.completed == old(at.log.completed) + [todo[0].id]
      ensures at.log.marked == old(at.log.marked) && at.log.sends == old(at.log.sends)
      ensures
        var id := todo[0].id;
        var completed := todo[0].(status := Complete, updatedAt := now, completedAt := Some(now));
        id in old(dirs) && dirs == old(dirs)[id := JobDir(completed, old(dirs)[id].files)]
    {
      StillDispatched(cfg, steps, at);
      var id := todo[0].id;
      done := dirs[id].record.status.Dispatched?;
      if done {
        SaveJob(dirs[id].record.(status := Complete, updatedAt := now, completedAt := Some(now)));
      }
      Record(CommitFinalize);
    }

    method NextQueuedJob() returns (next: Option<Job>)
      ensures next == NextQueuedFrom(dirs, queue)
      ensures next.None? ==> forall id <- queue :: id in dirs ==> !dirs[id].record.status.Queued?
      ensures next.Some? ==> FirstQueued(dirs, queue, next.value)
    {
      var i := 0;
      while i < |queue|
        invariant 0 <= i <= |queue|
        invariant NextQueuedFrom(dirs, queue) == NextQueuedFrom(dirs, queue[i..])
        invariant forall j :: 0 <= j < i && queue[j] in dirs ==> !dirs[queue[j]].record.status.Queued?
      {
        if queue[i] in dirs && dirs[queue[i]].record.status.Queued? {
          return Some(dirs[queue[i]].record);
        }
        i := i + 1;
      }
      return None;
    }

    /** Under the lock: nothing while a job is dispatched, else the first queued job. */
    method PickJob() returns (job: Option<Job>)
      requires Valid() && at.pc.Picking?
      modifies `at, `steps
      ensures Valid() && steps == old(steps) + [Pick] && at.log == old(at.log)
      ensures job.Some? ==>
        && at.pc == Provisioning(job.value, Entry, 0) && FirstQueued(dirs, queue, job.value)
        && forall id <- dirs :: !dirs[id].record.status.Dispatched?
      ensures job.None? ==>
        && at.pc.Idle?
        && ((exists id <- dirs :: dirs[id].record.status.Dispatched?)
            || forall id <- queue :: id in dirs ==> !dirs[id].record.status.Queued?)
    {
      var ids := ListJobs();
      for i := 0 to |ids|
        invariant forall k :: 0 <= k < i ==> !HasStatus(at, ids[k], Dispatched)
      {
        if dirs[ids[i]].record.status.Dispatched? {
          assert HasStatus(at, ids[i], Dispatched);
          Record(Pick);
          return None;
        }
      }
      job := NextQueuedJob();
      assert forall id <- dirs :: !HasStatus(at, id, Dispatched);
      Record(Pick);
    }

    /** Reads the artifacts; None stands for the missing-file exception. */
    method BuildSecureDispatchPayload(id: JobId) returns (payload: Option<Payload>)
      requires id in dirs
      ensures payload.None? <==> Model !in dirs[id].files || Weights !in dirs[id].files
      ensures payload.Some? ==> MadeOf(cfg, payload.value, dirs[id])
      ensures payload == if Buildable(dirs[id]) then Some(BuildPayload(cfg, dirs[id])) else None
    {
      var job, files := dirs[id].record, dirs[id].files;
      if Model !in files || Weights !in files {
        return None;
      }
      var preprocessing := None;
      if Preprocessing in files {
        preprocessing := Some((files[Preprocessing], cfg.sha256Hex(files[Preprocessing])));
      }
      payload := Some(Payload(
        job.id, job.datasetId, job.submittedAt, job.details.submittedBy, job.details.keycloakToken,
        job.details.hyperparameters,
        files[Model], cfg.sha256Hex(files[Model]), files[Weights], cfg.sha256Hex(files[Weights]),
        preprocessing));
    }

    /** Rechecks the head of the queue under the lock and builds its payload. */
    method RecheckAndBuild(job: Job) returns (payload: Option<Payload>)
      requires Valid() && at.pc.Rechecking? && at.pc.job.id == job.id
      modifies `at, `steps
      ensures Valid() && steps == old(steps) + [Recheck]
      ensures payload.None? ==> at.pc.Idle? && at.log == old(at.log)
      ensures payload.Some? ==>
        && at.pc == Sending(old(at.pc.job), payload.value, old(at.pc.choice))
        && (exists head: Job :: head.id == job.id && FirstQueued(dirs, queue, head)
              && at.log == old(at.log).(payloads := old(at.log.payloads) + [PayloadRecord(head.uid, payload.value)]))
        && job.id in dirs && MadeOf(cfg, payload.value, dirs[job.id])
    {
      var current := NextQueuedJob();
      if current.None? || current.value.id != job.id || current.value.id !in dirs {
        Record(Recheck);
        return None;
      }
      payload := BuildSecureDispatchPayload(current.value.id);
      Record(Recheck);
    }

    /** Sends over RA-TLS, unless no image digest is configured. */
    method RunRatlsDispatch(choice: Choice) returns (ok: bool)
      requires Valid() && at.pc.Sending? && at.pc.choice == choice
      modifies `dirs, `queue, `nextUid, `clock, `at, `steps, `events
      ensures Valid() && old(steps) <= steps && old(clock) <= clock <= old(clock) + 180.0
      ensures if ok then at.pc == Marking(old(at.pc.job), old(at.pc.payload), choice) else at.pc.Idle?
      ensures at.log.marked == old(at.log.marked)
      ensures
        var (job, payload) := (old(at.pc.job), old(at.pc.payload));
        at.log.sends
        == old(at.log.sends) + if ok then [SendRecord(job.uid, choice, job.gpuAttempts, payload)] else []
      ensures
        if choice.digest == "" then !ok && events == old(events)
        else events == old(events) + [Sent(choice.addr, choice.digest, old(at.pc.payload), ok)]
    {
      if choice.digest == "" {
        Record(Send(false));
        return false;
      }
      ghost var payload := at.pc.payload;
      ok := Attempt(SEND_SECONDS);
      Record(Send(ok));
      events := events + [Sent(choice.addr, choice.digest, payload, ok)];
    }

    method MarkJobDispatched(id: JobId, addr: string)
      requires Valid() && at.pc.Marking? && at.pc.job.id == id && at.pc.choice.addr == addr
      modifies `dirs, `queue, `at, `steps
      ensures Valid() && steps == old(steps) + [Mark] && at.pc.Idle?
      ensures
        id in old(dirs)
        && var job := old(dirs)[id].record.(
             status := Dispatched, assignedTee := addr, dispatchedAt := clock.Floor, updatedAt := clock.Floor);
        dirs == old(dirs)[id := JobDir(job, old(dirs)[id].files)]
      ensures id !in queue && old(queue) == [id] + queue
      ensures at.log == old(at.log).(marked := old(at.log.marked) + [id])
    {
      MarkTakesHead(cfg, steps, at);
      var now := clock.Floor;
      SaveJob(dirs[id].record.(status := Dispatched, assignedTee := addr, dispatchedAt := now, updatedAt := now));
      queue := Without(queue, id);
      Record(Mark);
    }

    /** The dispatch callback. Returns the job it marked dispatched, if any. */
    method DispatchNextQueuedJob() returns (dispatched: Option<JobId>)
      requires Valid() && cfg.poll > 0 && at.pc.Cleaned?
      modifies this
      ensures Valid() && old(steps) <= steps && at.pc.Idle?
      ensures at.log.marked == old(at.log.marked) + if dispatched.Some? then [dispatched.value] else []
      ensures dispatched.None? ==> at.log.sends == old(at.log.sends)
      ensures dispatched.Some? ==>
        Dispatching(cfg, old(at.log.sends), at.log.sends, old(events), events, dirs, dispatched.value)
      ensures dispatched.Some? ==> dispatched.value !in queue
    {
      ghost var before := events;
      var _ := FinalizeDispatchedJobs();
      Interfere();
      var job := PickJob();
      if job.None? {
        return None;
      }
      ghost var picked := events;
      dispatched := DispatchJob(job.value);
      if dispatched.Some? {
        DispatchingSince(cfg, old(at.log.sends), at.log.sends, before, picked, events, dirs, dispatched.value);
      }
    }

    method DispatchJob(job: Job) returns (dispatched: Option<JobId>)
      requires Valid() && cfg.poll > 0 && at.pc == Provisioning(job, Entry, 0)
      modifies this
      ensures Valid() && old(steps) <= steps && at.pc.Idle? && old(events) <= events
      ensures dispatched.Some? ==> dispatched.value == job.id
      ensures at.log.marked == old(at.log.marked) + if dispatched.Some? then [job.id] else []
      ensures dispatched.None? ==> at.log.sends == old(at.log.sends)
      ensures dispatched.Some? ==>
        Dispatching(cfg, old(at.log.sends), at.log.sends, old(events), events, dirs, job.id)
      ensures dispatched.Some? ==> job.id !in queue
    {
      Interfere();
      ghost var steps0, at0 := steps, at;
      var choice := ProvisionProcessingTee(job);
      QuietProvisioning(cfg, steps0, at0, steps, at);
      if choice.None? {
        return None;
      }
      ghost var provisioned := events;
      dispatched := SendJob(job, choice.value);
      if dispatched.Some? {
        DispatchingSince(cfg, old(at.log.sends), at.log.sends, old(events), provisioned, events, dirs, job.id);
      }
    }

    /** Recheck, send and mark. */
    method SendJob(job: Job, choice: Choice) returns (dispatched: Option<JobId>)
      requires Valid() && at.pc.Rechecking? && at.pc.job.id == job.id && at.pc.choice == choice
      requires OwnTarget(cfg, choice) && choice.addr != ""
      modifies `dirs, `queue, `nextUid, `clock, `at, `steps, `events
      ensures Valid() && old(steps) <= steps && at.pc.Idle? && old(events) <= events
      ensures dispatched.Some? ==> dispatched.value == job.id
      ensures at.log.marked == old(at.log.marked) + if dispatched.Some? then [job.id] else []
      ensures dispatched.None? ==> at.log.sends == old(at.log.sends)
      ensures dispatched.Some? ==>
        Dispatching(cfg, old(at.log.sends), at.log.sends, old(events), events, dirs, job.id)
      ensures dispatched.Some? ==> job.id !in queue
    {
      Interfere();
      var payload := RecheckAndBuild(job);
      if payload.None? {
        return None;
      }
      var sent := RunRatlsDispatch(choice);
      if !sent {
        return None;
      }
      Interfere();
      MarkJobDispatched(job.id, choice.addr);
      return Some(job.id);
    }

    /** One round of the scheduler loop. Between rounds the files agree with the history: the queue
        holds the queued jobs, each once, and at most one job is dispatched. */
    method SchedulerRound(interval: real)
      requires Valid() && cfg.poll > 0 && at.pc.Idle? && interval >= 0.0
      modifies this
      ensures Valid() && old(steps) <= steps && at.pc.Idle?
      ensures at.log.enqueued == at.log.completed + InFlight(at) + queue && NoDuplicates(queue)
      ensures forall a, b :: HasStatus(at, a, Dispatched) && HasStatus(at, b, Dispatched) ==> a == b
    {
      var _, _ := CleanupOldJobs();
      Interfere();
      var _ := DispatchNextQueuedJob();
      Sleep(interval);
      FilesAgree(cfg, steps, at);
    }
  }
}
