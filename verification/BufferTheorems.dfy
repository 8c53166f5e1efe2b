/** What holds in every state a run of the job machine can reach, for every configuration and
    every interleaving of requests, scheduler steps, outcomes and restarts. */
module BufferTheorems {
  import opened Wrappers
  import opened Bytes
  import opened Integers
  import opened BufferModel
  import opened BufferInvariant
  import opened BufferHistory
  import opened BufferProvisioning
  import opened BufferSubmissions

  ghost predicate Kept(cfg: Config, s: State) {
    && Structure(cfg, s)
    && UploadsKept(cfg, s) && PayloadsKept(cfg, s) && SendsKept(s) && TimesKept(cfg, s) && SubmissionsKept(cfg, s)
    && ProvisioningKept(cfg, s) && CooldownKept(cfg, s) && RetryClear(cfg, s)
  }

  lemma KeptInStep(cfg: Config, s: State, l: Label)
    requires Kept(cfg, s)
    ensures Kept(cfg, Apply(cfg, s, l))
  {
    StructureStep(cfg, s, l);
    UploadsKeptInStep(cfg, s, l);
    PayloadsKeptInStep(cfg, s, l);
    SendsKeptInStep(cfg, s, l);
    TimesKeptInStep(cfg, s, l);
    SubmissionsKeptInStep(cfg, s, l);
    ProvisioningKeptInStep(cfg, s, l);
    CooldownKeptInStep(cfg, s, l);
    RetryClearInStep(cfg, s, l);
  }

  /** s is the state that steps lead to. (Quantified so that Exec unfolds only where it is asked to.) */
  ghost predicate Reached(cfg: Config, steps: seq<Label>, s: State) {
    forall k :: k == |steps| ==> Exec(cfg, steps[..k]) == s
  }

  lemma ReachedIs(cfg: Config, steps: seq<Label>, s: State)
    ensures Reached(cfg, steps, s) <==> Exec(cfg, steps) == s
  {
    assert steps[..|steps|] == steps;
  }

  lemma ExecSnoc(cfg: Config, steps: seq<Label>, l: Label)
    ensures Exec(cfg, steps + [l]) == Apply(cfg, Exec(cfg, steps), l)
  {
    assert (steps + [l])[..|steps|] == steps;
  }

  lemma ReachedStep(cfg: Config, steps: seq<Label>, s: State, l: Label)
    requires Reached(cfg, steps, s)
    ensures Reached(cfg, steps + [l], Apply(cfg, s, l))
  {
    ReachedIs(cfg, steps, s);
    ExecSnoc(cfg, steps, l);
    ReachedIs(cfg, steps + [l], Apply(cfg, s, l));
  }

  lemma LastStep(cfg: Config, steps: seq<Label>, s: State) returns (before: State)
    requires Reached(cfg, steps, s) && steps != []
    ensures Reached(cfg, steps[..|steps| - 1], before) && s == Apply(cfg, before, steps[|steps| - 1])
  {
    before := Exec(cfg, steps[..|steps| - 1]);
    ReachedIs(cfg, steps, s);
    ReachedIs(cfg, steps[..|steps| - 1], before);
  }

  lemma {:induction false} ReachedKept(cfg: Config, steps: seq<Label>, s: State)
    requires Reached(cfg, steps, s)
    ensures Kept(cfg, s)
    decreases |steps|
  {
    if steps == [] {
      ReachedIs(cfg, steps, s);
      InitKept(cfg);
    } else {
      var before := LastStep(cfg, steps, s);
      ReachedKept(cfg, steps[..|steps| - 1], before);
      KeptInStep(cfg, before, steps[|steps| - 1]);
    }
  }

  lemma InitKept(cfg: Config)
    ensures Kept(cfg, INIT)
  {
    InitStructure(cfg);
    InitHistory(cfg);
    InitProvisioning(cfg);
  }

  lemma InitHistory(cfg: Config)
    ensures UploadsKept(cfg, INIT) && PayloadsKept(cfg, INIT) && SendsKept(INIT) && TimesKept(cfg, INIT)
    ensures SubmissionsKept(cfg, INIT)
  {
  }

  lemma InitProvisioning(cfg: Config)
    ensures ProvisioningKept(cfg, INIT) && CooldownKept(cfg, INIT) && RetryClear(cfg, INIT)
  {
  }

  lemma InitStructure(cfg: Config)
    ensures Structure(cfg, INIT)
  {
  }

  lemma AlwaysKept(cfg: Config, steps: seq<Label>)
    ensures Kept(cfg, Exec(cfg, steps))
  {
    ReachedIs(cfg, steps, Exec(cfg, steps));
    ReachedKept(cfg, steps, Exec(cfg, steps));
  }

  /** Continuing a run. */
  function Continue(cfg: Config, s: State, steps: seq<Label>): State
    decreases |steps|
  {
    if steps == [] then s else Continue(cfg, Apply(cfg, s, steps[0]), steps[1..])
  }

  lemma {:induction false} ExecThenContinue(cfg: Config, steps: seq<Label>, more: seq<Label>)
    ensures Exec(cfg, steps + more) == Continue(cfg, Exec(cfg, steps), more)
    decreases |more|
  {
    if more == [] {
      assert steps + more == steps;
    } else {
      var steps' := steps + [more[0]];
      ExecSnoc(cfg, steps, more[0]);
      assert steps + more == steps' + more[1..];
      ExecThenContinue(cfg, steps', more[1..]);
    }
  }

  // ---------------------------------------------------------------- queue

  /** What is dispatched but not complete: nothing, or one job. */
  function InFlight(s: State): seq<JobId> {
    if |s.log.marked| > |s.log.completed| then s.log.marked[|s.log.completed|..] else []
  }

  /** First in, first out, over every run: the ids ever enqueued are the completed ones, then the
      one in flight, then the queue, in that order; the queue has no duplicates and holds exactly
      the queued jobs, and the jobs in flight are exactly the dispatched ones. */
  lemma FifoConservation(cfg: Config, steps: seq<Label>)
    ensures
      var s := Exec(cfg, steps);
      && s.log.enqueued == s.log.completed + InFlight(s) + s.queue
      && s.log.marked == s.log.completed + InFlight(s)
      && NoDuplicates(s.queue)
      && (forall id :: id in s.queue <==> HasStatus(s, id, Queued))
      && |InFlight(s)| <= 1
      && (forall id :: id in InFlight(s) <==> HasStatus(s, id, Dispatched))
  {
    AlwaysKept(cfg, steps);
    InFlightIsDispatched(Exec(cfg, steps));
    QueueIsQueued(Exec(cfg, steps));
  }

  lemma InFlightIsDispatched(s: State)
    requires InFlightKept(s)
    ensures s.log.marked == s.log.completed + InFlight(s) && |InFlight(s)| <= 1
    ensures forall id :: id in InFlight(s) <==> HasStatus(s, id, Dispatched)
  {
    assert s.log.marked == s.log.completed + InFlight(s);
    assert InFlight(s) != [] ==> InFlight(s) == [s.log.marked[|s.log.completed|]];
  }

  lemma QueueIsQueued(s: State)
    requires QueueKept(s)
    ensures forall id :: id in s.queue <==> HasStatus(s, id, Queued)
  {
  }

  lemma AtMostOneDispatched(cfg: Config, steps: seq<Label>, a: JobId, b: JobId)
    requires HasStatus(Exec(cfg, steps), a, Dispatched) && HasStatus(Exec(cfg, steps), b, Dispatched)
    ensures a == b
  {
    AlwaysKept(cfg, steps);
  }

  // ---------------------------------------------------------------- pick stability

  predicate HoldsJob(pc: Pc) {
    pc.Provisioning? || pc.Rechecking? || pc.Sending? || pc.Marking?
  }

  /** The record the scheduler picked, whatever requests, probes, starts and stale writes came in
      between: still the head of the queue, still what the next pick would return, and changed in
      its provisioning progress only. */
  lemma PickStable(cfg: Config, steps: seq<Label>, more: seq<Label>)
    requires HoldsJob(Exec(cfg, steps).pc) && Pick !in more
    ensures
      var s, s' := Exec(cfg, steps), Exec(cfg, steps + more);
      HoldsJob(s'.pc) ==> (NextQueued(s') == Some(s'.pc.job) && SameButProgress(s.pc.job, s'.pc.job))
  {
    ReachedIs(cfg, steps, Exec(cfg, steps));
    ReachedIs(cfg, steps + more, Exec(cfg, steps + more));
    HeldThrough(cfg, steps, Exec(cfg, steps), more, Exec(cfg, steps + more));
    HeldIsNext(cfg, steps + more, Exec(cfg, steps + more));
  }

  lemma {:induction false} HeldThrough(cfg: Config, steps: seq<Label>, s: State, more: seq<Label>, s': State)
    requires Reached(cfg, steps, s) && Reached(cfg, steps + more, s') && HoldsJob(s.pc) && Pick !in more
    ensures HoldsJob(s'.pc) ==> SameButProgress(s.pc.job, s'.pc.job)
    decreases |more|
  {
    if more == [] {
      assert steps + more == steps;
      ReachedOnce(cfg, steps, s, s');
    } else {
      var before := StepBefore(cfg, steps, more, s');
      HeldThrough(cfg, steps, s, more[..|more| - 1], before);
    }
  }

  lemma ReachedOnce(cfg: Config, steps: seq<Label>, s: State, s': State)
    requires Reached(cfg, steps, s) && Reached(cfg, steps, s')
    ensures s == s'
  {
    ReachedIs(cfg, steps, s);
    ReachedIs(cfg, steps, s');
  }

  /** The state before the last step, which held no other job. */
  lemma StepBefore(cfg: Config, steps: seq<Label>, more: seq<Label>, s': State) returns (before: State)
    requires Reached(cfg, steps + more, s') && more != [] && more[|more| - 1] != Pick
    ensures Reached(cfg, steps + more[..|more| - 1], before)
    ensures HoldsJob(s'.pc) ==> (HoldsJob(before.pc) && SameButProgress(before.pc.job, s'.pc.job))
  {
    before := LastStep(cfg, steps + more, s');
    assert (steps + more)[..|steps + more| - 1] == steps + more[..|more| - 1];
    HeldJobInStep(cfg, before, more[|more| - 1]);
  }

  lemma HeldIsNext(cfg: Config, steps: seq<Label>, s: State)
    requires Reached(cfg, steps, s)
    ensures HoldsJob(s.pc) ==> NextQueued(s) == Some(s.pc.job)
  {
    ReachedKept(cfg, steps, s);
    NextIsHead(s);
  }

  lemma HeldJobInStep(cfg: Config, s: State, l: Label)
    requires l != Pick
    ensures
      var pc' := Apply(cfg, s, l).pc;
      HoldsJob(pc') ==> (HoldsJob(s.pc) && SameButProgress(s.pc.job, pc'.job))
  {
    if IsProvisioning(l) {
      HeldJobInProvision(cfg, s, l);
    }
  }

  lemma HeldJobInProvision(cfg: Config, s: State, l: Label)
    requires IsProvisioning(l)
    ensures
      var pc' := Apply(cfg, s, l).pc;
      HoldsJob(pc') ==> (HoldsJob(s.pc) && SameButProgress(s.pc.job, pc'.job))
  {
    if s.pc.Provisioning? {
      HeldJobInCall(cfg, s, s.pc.job, s.pc.phase, s.pc.startsThisCall, l);
    } else {
      ProvisionElsewhereDoesNothing(cfg, s, l);
    }
  }

  lemma HeldJobInCall(cfg: Config, s: State, job: Job, phase: Phase, n: nat, l: Label)
    requires s.pc == Provisioning(job, phase, n)
    ensures
      var pc' := Provision(cfg, s, job, phase, n, l).pc;
      HoldsJob(pc') ==> SameButProgress(job, pc'.job)
  {
  }

  /** The record differs in the attempt count, which may have grown, and the target at most. */
  ghost predicate SameButProgress(job: Job, job': Job) {
    job' == job.(gpuAttempts := job'.gpuAttempts, target := job'.target) && job'.gpuAttempts >= job.gpuAttempts
  }

  /** So the recheck after provisioning never gives up, and never finds a file missing. */
  lemma RecheckSucceeds(cfg: Config, steps: seq<Label>)
    requires Exec(cfg, steps).pc.Rechecking?
    ensures
      var s := Exec(cfg, steps);
      var s' := Exec(cfg, steps + [Recheck]);
      && HasStatus(s, s.pc.job.id, Queued) && AllRequired(s.dirs[s.pc.job.id])
      && s'.pc == Sending(s.pc.job, BuildPayload(cfg, s.dirs[s.pc.job.id]), s.pc.choice)
      && s.pc.job.uid < |s.log.creates|
      && AsSubmitted(cfg, s.log.creates[s.pc.job.uid], s.log.uploads, s.pc.job.uid, s'.pc.payload)
  {
    ReachedIs(cfg, steps, Exec(cfg, steps));
    RecheckBuilds(cfg, steps, Exec(cfg, steps));
    RecheckIsSubmitted(cfg, steps, Exec(cfg, steps));
    ExecSnoc(cfg, steps, Recheck);
  }

  lemma RecheckBuilds(cfg: Config, steps: seq<Label>, s: State)
    requires Reached(cfg, steps, s) && s.pc.Rechecking?
    ensures HasStatus(s, s.pc.job.id, Queued) && AllRequired(s.dirs[s.pc.job.id])
    ensures Apply(cfg, s, Recheck).pc == Sending(s.pc.job, BuildPayload(cfg, s.dirs[s.pc.job.id]), s.pc.choice)
  {
    ReachedKept(cfg, steps, s);
    HeldJobBuilds(cfg, s);
  }

  lemma HeldJobBuilds(cfg: Config, s: State)
    requires Structure(cfg, s) && s.pc.Rechecking?
    ensures HasStatus(s, s.pc.job.id, Queued) && AllRequired(s.dirs[s.pc.job.id])
    ensures Apply(cfg, s, Recheck).pc == Sending(s.pc.job, BuildPayload(cfg, s.dirs[s.pc.job.id]), s.pc.choice)
  {
    RecheckLogs(cfg, s);
    assert s.queue[0] in s.queue;
  }

  lemma RecheckIsSubmitted(cfg: Config, steps: seq<Label>, s: State)
    requires Reached(cfg, steps, s) && s.pc.Rechecking? && s.pc.job.id in s.dirs && Buildable(s.dirs[s.pc.job.id])
    ensures s.pc.job.uid < |s.log.creates|
    ensures
      var (uid, payload) := (s.pc.job.uid, BuildPayload(cfg, s.dirs[s.pc.job.id]));
      AsSubmitted(cfg, s.log.creates[uid], s.log.uploads, uid, payload)
  {
    ReachedKept(cfg, steps, s);
    BuiltAsSubmitted(cfg, s, s.pc.job.id);
  }

  // ---------------------------------------------------------------- lifecycle

  function Rank(status: Status): nat {
    match status
    case PendingUpload => 0
    case Queued => 1
    case Dispatched => 2
    case Complete => 3
    case Rejected => 4
  }

  /** One step moves a record at most one place along pending_upload, queued, dispatched, complete. */
  lemma LifecycleStep(cfg: Config, steps: seq<Label>, l: Label, id: JobId)
    requires id in Exec(cfg, steps).dirs && id in Exec(cfg, steps + [l]).dirs
    ensures
      var job, job' := Exec(cfg, steps).dirs[id].record, Exec(cfg, steps + [l]).dirs[id].record;
      && job'.uid == job.uid
      && StatusStep(job.status, job'.status)
  {
    AlwaysKept(cfg, steps);
    ExecSnoc(cfg, steps, l);
    RecordsEvolveInStep(cfg, Exec(cfg, steps), l);
  }

  /** job' is a later state of the same incarnation. */
  ghost predicate LaterRecord(job: Job, job': Job) {
    && job'.id == job.id && job'.uid == job.uid
    && job'.datasetId == job.datasetId && job'.submittedAt == job.submittedAt
    && job'.commitments == job.commitments && job'.details == job.details
    && Rank(job.status) <= Rank(job'.status)
  }

  /** Over any stretch of a run an incarnation of a job keeps what was submitted, and never moves
      back. */
  lemma LifecycleForward(cfg: Config, steps: seq<Label>, more: seq<Label>, id: JobId, id': JobId)
    requires id in Exec(cfg, steps).dirs && id' in Exec(cfg, steps + more).dirs
    requires Exec(cfg, steps).dirs[id].record.uid == Exec(cfg, steps + more).dirs[id'].record.uid
    ensures LaterRecord(Exec(cfg, steps).dirs[id].record, Exec(cfg, steps + more).dirs[id'].record)
  {
    ReachedIs(cfg, steps, Exec(cfg, steps));
    ReachedIs(cfg, steps + more, Exec(cfg, steps + more));
    LaterThrough(cfg, steps, Exec(cfg, steps), more, Exec(cfg, steps + more), id, id');
  }

  lemma {:induction false} LaterThrough(
    cfg: Config, steps: seq<Label>, s: State, more: seq<Label>, s': State, id: JobId, id': JobId)
    requires Reached(cfg, steps, s) && Reached(cfg, steps + more, s') && id in s.dirs && id' in s'.dirs
    requires s.dirs[id].record.uid == s'.dirs[id'].record.uid
    ensures LaterRecord(s.dirs[id].record, s'.dirs[id'].record)
    decreases |more|
  {
    if more == [] {
      assert steps + more == steps;
      ReachedOnce(cfg, steps, s, s');
      SameUidSameId(cfg, steps, s, id, id');
    } else {
      var init := more[..|more| - 1];
      var before := LastStep(cfg, steps + more, s');
      assert (steps + more)[..|steps + more| - 1] == steps + init;
      UidsGrow(cfg, steps, s, init, before, id);
      RecordBefore(cfg, steps + init, before, more[|more| - 1], id');
      LaterThrough(cfg, steps, s, init, before, id, id');
    }
  }

  lemma SameUidSameId(cfg: Config, steps: seq<Label>, s: State, id: JobId, id': JobId)
    requires Reached(cfg, steps, s) && id in s.dirs && id' in s.dirs
    requires s.dirs[id].record.uid == s.dirs[id'].record.uid
    ensures id == id' && s.dirs[id].record.uid < s.nextUid
  {
    ReachedKept(cfg, steps, s);
  }

  /** A record that is not new was there before the step, in an earlier state. */
  lemma RecordBefore(cfg: Config, steps: seq<Label>, s: State, l: Label, id: JobId)
    requires Reached(cfg, steps, s) && id in Apply(cfg, s, l).dirs && Apply(cfg, s, l).dirs[id].record.uid < s.nextUid
    ensures id in s.dirs && LaterRecord(s.dirs[id].record, Apply(cfg, s, l).dirs[id].record)
  {
    ReachedKept(cfg, steps, s);
    RecordsEvolveInStep(cfg, s, l);
    assert id !in s.dirs ==> FreshDir(s, Apply(cfg, s, l).dirs[id]);
    assert id in s.dirs ==> DirEvolves(s.dirs[id], Apply(cfg, s, l).dirs[id], l);
  }

  lemma {:induction false} UidsGrow(
    cfg: Config, steps: seq<Label>, s: State, more: seq<Label>, s': State, id: JobId)
    requires Reached(cfg, steps, s) && Reached(cfg, steps + more, s') && id in s.dirs
    ensures s.dirs[id].record.uid < s'.nextUid
    decreases |more|
  {
    if more == [] {
      assert steps + more == steps;
      ReachedOnce(cfg, steps, s, s');
      SameUidSameId(cfg, steps, s, id, id);
    } else {
      var init := more[..|more| - 1];
      var before := LastStep(cfg, steps + more, s');
      assert (steps + more)[..|steps + more| - 1] == steps + init;
      UidsGrow(cfg, steps, s, init, before, id);
      NextUidGrows(cfg, steps + init, before, more[|more| - 1]);
    }
  }

  lemma NextUidGrows(cfg: Config, steps: seq<Label>, s: State, l: Label)
    requires Reached(cfg, steps, s)
    ensures s.nextUid <= Apply(cfg, s, l).nextUid
  {
    ReachedKept(cfg, steps, s);
    RecordsEvolveInStep(cfg, s, l);
  }

  /** No incarnation of a job is sent twice, and what is sent is a payload built for it. */
  lemma NeverSentTwice(cfg: Config, steps: seq<Label>)
    ensures
      var sends := Exec(cfg, steps).log.sends;
      && (forall i, j :: 0 <= i < j < |sends| ==> sends[i].uid != sends[j].uid)
      && (forall r <- sends :: PayloadRecord(r.uid, r.payload) in Exec(cfg, steps).log.payloads)
  {
    AlwaysKept(cfg, steps);
  }

  /** Complete no earlier than dispatch plus grace; deleted only when complete, and no earlier than
      dispatch plus grace plus retention. */
  lemma TimeBounds(cfg: Config, steps: seq<Label>)
    ensures
      var s := Exec(cfg, steps);
      && (forall id <- s.dirs :: s.dirs[id].record.status.Complete? ==>
            var job := s.dirs[id].record;
            job.completedAt.Some? && job.completedAt.value >= job.dispatchedAt + cfg.grace)
      && (forall d <- s.log.deletions ::
            && d.record.status.Complete?
            && d.at >= (d.record.dispatchedAt + cfg.grace + cfg.retention) as real)
  {
    AlwaysKept(cfg, steps);
  }

  // ---------------------------------------------------------------- hashes and payloads

  function PayloadHash(payload: Payload, a: Artifact): Option<Digest> {
    match a
    case Model => Some(payload.modelSha256)
    case Weights => Some(payload.weightsSha256)
    case Preprocessing => if payload.preprocessing.Some? then Some(payload.preprocessing.value.1) else None
  }

  /** Every record holds the data of the request that created it, over its whole life. */
  lemma RecordsAsSubmitted(cfg: Config, steps: seq<Label>)
    ensures
      var s := Exec(cfg, steps);
      && |s.log.creates| == s.nextUid
      && forall id <- s.dirs ::
           var job := s.dirs[id].record;
           job.id == id && job.uid < s.nextUid && RecordSubmitted(job, s.log.creates[job.uid])
  {
    AlwaysKept(cfg, steps);
    assert forall id <- Exec(cfg, steps).dirs ::
      RecordKept(Exec(cfg, steps).log.creates, Exec(cfg, steps).dirs[id].record);
  }

  /** What is sent, or about to be sent or marked, is what was submitted: the data of the request that
      created this incarnation, and for each artifact the bytes of its latest upload with their hash. */
  lemma SentAsSubmitted(cfg: Config, steps: seq<Label>)
    ensures
      var s := Exec(cfg, steps);
      && (forall r <- s.log.sends ::
            r.uid < |s.log.creates| && AsSubmitted(cfg, s.log.creates[r.uid], s.log.uploads, r.uid, r.payload))
      && (s.pc.Sending? || s.pc.Marking? ==>
            var uid := s.pc.job.uid;
            uid < |s.log.creates| && AsSubmitted(cfg, s.log.creates[uid], s.log.uploads, uid, s.pc.payload))
  {
    ReachedIs(cfg, steps, Exec(cfg, steps));
    ReachedKept(cfg, steps, Exec(cfg, steps));
    SendsSubmitted(cfg, Exec(cfg, steps));
  }

  lemma SendsSubmitted(cfg: Config, s: State)
    requires SendsKept(s) && SubmissionsKept(cfg, s)
    ensures forall r <- s.log.sends ::
      r.uid < |s.log.creates| && AsSubmitted(cfg, s.log.creates[r.uid], s.log.uploads, r.uid, r.payload)
    ensures s.pc.Sending? || s.pc.Marking? ==>
      var uid := s.pc.job.uid;
      uid < |s.log.creates| && AsSubmitted(cfg, s.log.creates[uid], s.log.uploads, uid, s.pc.payload)
  {
    forall r <- s.log.sends
      ensures r.uid < |s.log.creates| && AsSubmitted(cfg, s.log.creates[r.uid], s.log.uploads, r.uid, r.payload)
    {
      assert PayloadKept(cfg, s.log, PayloadRecord(r.uid, r.payload));
    }
    if s.pc.Sending? || s.pc.Marking? {
      assert PayloadKept(cfg, s.log, PayloadRecord(s.pc.job.uid, s.pc.payload));
    }
  }

  /** An artifact with a committed digest is in the payload, and its hash there is the committed one
      exactly if its latest upload was accepted. */
  ghost predicate CommitmentMet(digest: Digest, hash: Option<Digest>, latest: Option<UploadRecord>) {
    digest != "" ==> latest.Some? && hash.Some? && (hash == Some(digest) <==> latest.value.accepted)
  }

  /** For a job that has left pending_upload every committed artifact is in the payload, and its hash is
      the one its client committed to exactly if the latest upload of that artifact was accepted. */
  lemma CommittedHashes(cfg: Config, steps: seq<Label>, id: JobId)
    requires id in Exec(cfg, steps).dirs && !Exec(cfg, steps).dirs[id].record.status.PendingUpload?
    ensures
      var s := Exec(cfg, steps);
      var uid := s.dirs[id].record.uid;
      && AllRequired(s.dirs[id]) && uid < |s.log.creates|
      && var (committed, payload) := (s.log.creates[uid].request.commitments, BuildPayload(cfg, s.dirs[id]));
      && AsSubmitted(cfg, s.log.creates[uid], s.log.uploads, uid, payload)
      && CommitmentMet(committed.model, Some(payload.modelSha256), LastUpload(s.log.uploads, uid, Model))
      && CommitmentMet(committed.weights, Some(payload.weightsSha256), LastUpload(s.log.uploads, uid, Weights))
      && CommitmentMet(committed.preprocessing, PayloadHash(payload, Preprocessing),
                       LastUpload(s.log.uploads, uid, Preprocessing))
  {
    ReachedIs(cfg, steps, Exec(cfg, steps));
    ReachedKept(cfg, steps, Exec(cfg, steps));
    CommitmentsMet(cfg, Exec(cfg, steps), id);
  }

  lemma CommitmentsMet(cfg: Config, s: State, id: JobId)
    requires FilesKept(s) && UploadsKept(cfg, s) && SubmissionsKept(cfg, s)
    requires id in s.dirs && !s.dirs[id].record.status.PendingUpload?
    ensures
      var uid := s.dirs[id].record.uid;
      && AllRequired(s.dirs[id]) && uid < |s.log.creates|
      && var (committed, payload) := (s.log.creates[uid].request.commitments, BuildPayload(cfg, s.dirs[id]));
      && AsSubmitted(cfg, s.log.creates[uid], s.log.uploads, uid, payload)
      && CommitmentMet(committed.model, Some(payload.modelSha256), LastUpload(s.log.uploads, uid, Model))
      && CommitmentMet(committed.weights, Some(payload.weightsSha256), LastUpload(s.log.uploads, uid, Weights))
      && CommitmentMet(committed.preprocessing, PayloadHash(payload, Preprocessing),
                       LastUpload(s.log.uploads, uid, Preprocessing))
  {
    BuiltAsSubmitted(cfg, s, id);
    assert RecordKept(s.log.creates, s.dirs[id].record);
    assert FileLogged(cfg, s.dirs[id], s.log.uploads, Model);
    assert FileLogged(cfg, s.dirs[id], s.log.uploads, Weights);
    assert FileLogged(cfg, s.dirs[id], s.log.uploads, Preprocessing);
  }

  /** The job as submitted is queued, with every required file, and its payload carries this model. */
  ghost predicate QueuedWith(cfg: Config, s: State, request: CreateRequest, model: Data) {
    var id := request.jobId;
    && HasStatus(s, id, Queued) && s.queue == [id] && AllRequired(s.dirs[id])
    && s.dirs[id].record.commitments == request.commitments
    && BuildPayload(cfg, s.dirs[id]).model == model
    && PayloadHash(BuildPayload(cfg, s.dirs[id]), Model) == Some(cfg.sha256Hex(model))
  }

  /** A job can be queued with a model that fails its committed hash: the rejected upload stays on
      disk and counts as arrived. */
  lemma QueuedWithWrongModel(cfg: Config, request: CreateRequest, model: Data, weights: Data)
    requires ValidDataset(request.datasetId)
    requires request.commitments.model != "" && cfg.sha256Hex(model) != request.commitments.model
    requires request.commitments.weights == "" && request.commitments.preprocessing == ""
    ensures
      var id := request.jobId;
      var run := [Create(request), Upload(id, Some(Model), model), Upload(id, Some(Weights), weights)];
      QueuedWith(cfg, Exec(cfg, run), request, model)
  {
    var id := request.jobId;
    RunOfThree(cfg, Create(request), Upload(id, Some(Model), model), Upload(id, Some(Weights), weights));
    RejectedModelQueues(cfg, request, model, weights);
  }

  lemma RunOfThree(cfg: Config, a: Label, b: Label, c: Label)
    ensures Exec(cfg, [a, b, c]) == Apply(cfg, Apply(cfg, Apply(cfg, INIT, a), b), c)
  {
    var (s1, s2) := (Apply(cfg, INIT, a), Apply(cfg, Apply(cfg, INIT, a), b));
    ReachedIs(cfg, [], INIT);
    ReachedStep(cfg, [], INIT, a);
    ReachedStep(cfg, [] + [a], s1, b);
    ReachedStep(cfg, [] + [a] + [b], s2, c);
    assert [] + [a] + [b] + [c] == [a, b, c];
    ReachedIs(cfg, [a, b, c], Apply(cfg, s2, c));
  }

  lemma RejectedModelQueues(cfg: Config, request: CreateRequest, model: Data, weights: Data)
    requires ValidDataset(request.datasetId)
    requires request.commitments.model != "" && cfg.sha256Hex(model) != request.commitments.model
    requires request.commitments.weights == "" && request.commitments.preprocessing == ""
    ensures
      var id := request.jobId;
      var s1 := Apply(cfg, INIT, Create(request));
      var s2 := Apply(cfg, s1, Upload(id, Some(Model), model));
      QueuedWith(cfg, Apply(cfg, s2, Upload(id, Some(Weights), weights)), request, model)
  {
    var id := request.jobId;
    var s1 := CreateJobRecord(INIT, request);
    var s2 := ReceiveArtifact(cfg, s1, id, Some(Model), model);
    assert s2.dirs[id] == s1.dirs[id].(files := map[Model := model]);
  }

  /** Every dispatch attempt of an incarnation carries the same payload. */
  lemma PayloadFrozen(cfg: Config, steps: seq<Label>)
    ensures
      var s := Exec(cfg, steps);
      && (forall e <- s.log.payloads, f <- s.log.payloads :: e.uid == f.uid ==> e.payload == f.payload)
      && (forall e <- s.log.payloads, id <- s.dirs :: s.dirs[id].record.uid == e.uid ==>
            AllRequired(s.dirs[id]) && BuildPayload(cfg, s.dirs[id]) == e.payload)
  {
    AlwaysKept(cfg, steps);
  }

  // ---------------------------------------------------------------- provisioning

  /** The choice is the address and the image digest configured for its target. */
  ghost predicate OwnTarget(cfg: Config, choice: Choice) {
    && (choice.target.Gpu? ==> choice.addr == cfg.gpuAddr && choice.digest == cfg.gpuDigest)
    && (choice.target.Cpu? ==> choice.addr == cfg.cpuAddr && choice.digest == cfg.cpuDigest)
  }

  /** The persisted attempt count is the number of accepted GPU starts of that incarnation and stays
      within the maximum; every send went to one target's own address and digest, and to the CPU
      only with the GPU attempts used up. */
  lemma ProvisioningOverLife(cfg: Config, steps: seq<Label>)
    ensures
      var s := Exec(cfg, steps);
      && (forall id <- s.dirs ::
            var job := s.dirs[id].record;
            && job.gpuAttempts == AcceptedGpuStarts(s.log.starts, job.uid)
            && job.gpuAttempts <= Max(0, cfg.maxGpuAttempts))
      && (forall r <- s.log.sends ::
            && OwnTarget(cfg, r.choice) && r.choice.addr != "" && r.choice.digest != ""
            && (r.choice.target.Cpu? ==> r.gpuAttempts >= cfg.maxGpuAttempts))
      && (s.pc.Rechecking? || s.pc.Sending? || s.pc.Marking? ==>
            && OwnTarget(cfg, s.pc.choice)
            && s.pc.job.id in s.dirs && s.dirs[s.pc.job.id].record.target == Some(s.pc.choice.target))
  {
    AlwaysKept(cfg, steps);
  }

  /** The CPU is reachable only through accepted GPU starts: a job whose GPU starts all failed or
      were skipped is never provisioned on the CPU, unless no GPU attempt is configured at all. */
  lemma CpuOnlyAfterAcceptedStarts(cfg: Config, steps: seq<Label>)
    requires Exec(cfg, steps).pc.Rechecking? && Exec(cfg, steps).pc.choice.target.Cpu?
    ensures
      var s := Exec(cfg, steps);
      AcceptedGpuStarts(s.log.starts, s.pc.job.uid) == Max(0, cfg.maxGpuAttempts)
  {
    AlwaysKept(cfg, steps);
    var s := Exec(cfg, steps);
    assert AttemptsCounted(cfg, s, s.dirs[s.pc.job.id].record);
  }

  /** Finalization probes the address the job was sent to. */
  lemma FinalizeProbesSentAddress(cfg: Config, steps: seq<Label>)
    requires Exec(cfg, steps).pc.Finalizing? && Exec(cfg, steps).pc.todo != []
    ensures
      var s := Exec(cfg, steps);
      var sent := SentTo(s.log.sends, s.pc.todo[0].uid);
      sent.Some? && sent.value.choice.addr == s.pc.todo[0].assignedTee != ""
  {
    AlwaysKept(cfg, steps);
    var s := Exec(cfg, steps);
    assert SendMatches(s, s.dirs[s.pc.todo[0].id].record);
    SentToNone(s.log.sends, s.pc.todo[0].uid);
  }

  /** Start requests for one target are at least the cooldown apart, over every run. */
  lemma StartsSpaced(cfg: Config, steps: seq<Label>)
    ensures
      var starts := Exec(cfg, steps).log.starts;
      forall i, j :: 0 <= i < j < |starts| && starts[i].target == starts[j].target ==>
        starts[j].now - starts[i].now >= cfg.cooldown
  {
    AlwaysKept(cfg, steps);
  }

  /** With a boot timeout of at least the cooldown, once a call has started the GPU, neither its
      GPU retries nor a first-ever CPU start is skipped by the cooldown. */
  lemma RetryNotBlocked(cfg: Config, steps: seq<Label>)
    requires cfg.gpuBootTimeout >= cfg.cooldown
    requires Exec(cfg, steps).pc.Provisioning? && Exec(cfg, steps).pc.phase.Awaiting?
    requires Exec(cfg, steps).pc.startsThisCall > 0
    requires Exec(cfg, steps).pc.phase.target.Gpu? || Cpu !in Exec(cfg, steps).lastStart
    ensures InStart(Exec(cfg, steps + [BeginStart]).pc)
  {
    AlwaysKept(cfg, steps);
    ExecSnoc(cfg, steps, BeginStart);
    RetryAdmitted(cfg, Exec(cfg, steps));
  }

  predicate GpuPhase(phase: Phase) {
    (phase.Awaiting? || phase.Starting? || phase.Waiting?) && phase.target.Gpu?
  }

  /** Why a step ends a call that is trying the GPU: a start skipped by the cooldown, a start command not
      accepted, a GPU that is up but has no address, or a restart. */
  predicate EndsGpuCall(cfg: Config, s: State, l: Label) {
    s.pc.Provisioning? &&
      match (l, s.pc.phase)
      case (BeginStart, Awaiting(Gpu)) => s.clock.Floor - LastStart(s, Gpu) < cfg.cooldown
      case (EndStart(outcome), Starting(Gpu, _)) => !outcome.Accepted?
      case (WaitHealthy, Waiting(Gpu, _)) => cfg.gpuAddr == ""
      case (Restart, phase) => !phase.Starting?
      case _ => false
  }

  /** A call that is trying the GPU ends exactly for those reasons, and with a boot timeout of at least
      the cooldown only its first start can be skipped. Otherwise it goes on until the GPU is up or it
      turns to the CPU. */
  lemma GpuCallEndsIff(cfg: Config, steps: seq<Label>, l: Label)
    requires Exec(cfg, steps).pc.Provisioning? && GpuPhase(Exec(cfg, steps).pc.phase)
    ensures
      var s, s' := Exec(cfg, steps), Exec(cfg, steps + [l]);
      && (s'.pc.Idle? <==> EndsGpuCall(cfg, s, l))
      && (l == BeginStart && EndsGpuCall(cfg, s, l) && cfg.gpuBootTimeout >= cfg.cooldown ==> s.pc.startsThisCall == 0)
      && (!s'.pc.Idle? ==>
            || (s'.pc.Rechecking? && l == WaitHealthy)
            || (s'.pc.Provisioning? && (GpuPhase(s'.pc.phase) || s'.pc.phase.CpuEntry?)))
  {
    ReachedIs(cfg, steps, Exec(cfg, steps));
    ExecSnoc(cfg, steps, l);
    GpuStepEndsIff(cfg, steps, Exec(cfg, steps), l);
  }

  lemma GpuStepEndsIff(cfg: Config, steps: seq<Label>, s: State, l: Label)
    requires Reached(cfg, steps, s) && s.pc.Provisioning? && GpuPhase(s.pc.phase)
    ensures
      var s' := Apply(cfg, s, l);
      && (s'.pc.Idle? <==> EndsGpuCall(cfg, s, l))
      && (l == BeginStart && EndsGpuCall(cfg, s, l) && cfg.gpuBootTimeout >= cfg.cooldown ==> s.pc.startsThisCall == 0)
      && (!s'.pc.Idle? ==>
            || (s'.pc.Rechecking? && l == WaitHealthy)
            || (s'.pc.Provisioning? && (GpuPhase(s'.pc.phase) || s'.pc.phase.CpuEntry?)))
  {
    ReachedKept(cfg, steps, s);
    if l == BeginStart && s.pc.phase.Awaiting? && s.pc.startsThisCall > 0 && cfg.gpuBootTimeout >= cfg.cooldown {
      RetryAdmitted(cfg, s);
    }
    PcAfterGpuStep(cfg, s, l);
  }

  lemma PcAfterGpuStep(cfg: Config, s: State, l: Label)
    requires s.pc.Provisioning? && GpuPhase(s.pc.phase)
    ensures
      var pc' := Apply(cfg, s, l).pc;
      && (pc'.Idle? <==> EndsGpuCall(cfg, s, l))
      && (!pc'.Idle? ==>
            || (pc'.Rechecking? && l == WaitHealthy)
            || (pc'.Provisioning? && (GpuPhase(pc'.phase) || pc'.phase.CpuEntry?)))
  {
  }

  predicate OnGpu(pc: Pc) {
    pc.Provisioning? && GpuPhase(pc.phase)
  }

  predicate AtCpu(pc: Pc) {
    pc.Provisioning? && pc.phase.CpuEntry?
  }

  /** Not a restart, not a start that is refused, not a wait that succeeds, and not a skip of the call's
      first start. */
  predicate NoExit(cfg: Config, s: State, l: Label) {
    && !l.Restart? && !l.WaitHealthy? && (l.EndStart? ==> l.outcome.Accepted?)
    && (l.BeginStart? && s.pc.Provisioning? && s.pc.startsThisCall == 0 ==>
          s.clock.Floor - LastStart(s, Gpu) >= cfg.cooldown)
  }

  predicate NoExits(cfg: Config, s: State, more: seq<Label>)
    decreases |more|
  {
    more != [] ==> NoExit(cfg, s, more[0]) && NoExits(cfg, Apply(cfg, s, more[0]), more[1..])
  }

  /** At some point the call turns to the CPU. */
  predicate TurnsToCpu(cfg: Config, s: State, more: seq<Label>)
    decreases |more|
  {
    AtCpu(s.pc) || (more != [] && TurnsToCpu(cfg, Apply(cfg, s, more[0]), more[1..]))
  }

  /** The scheduler's own steps among them: those that move its program counter. */
  function OwnSteps(cfg: Config, s: State, more: seq<Label>): nat
    decreases |more|
  {
    if more == [] then 0
    else
      var s' := Apply(cfg, s, more[0]);
      (if s'.pc != s.pc then 1 else 0) + OwnSteps(cfg, s', more[1..])
  }

  /** How many of its own steps a call may still try the GPU for: three for each attempt left. */
  function GpuWork(cfg: Config, pc: Pc): int
    requires OnGpu(pc)
  {
    var left := Max(0, cfg.maxGpuAttempts - pc.job.gpuAttempts);
    match pc.phase
    case Awaiting(_) => 3 * left
    case Starting(_, _) => 3 * left - 1
    case Waiting(_, _) => 3 * left + 1
  }

  lemma GpuWorkPositive(cfg: Config, s: State)
    requires ProvisioningKept(cfg, s) && OnGpu(s.pc)
    ensures GpuWork(cfg, s.pc) > 0
  {
  }

  lemma GpuStepWorks(cfg: Config, s: State, l: Label)
    requires Kept(cfg, s) && OnGpu(s.pc) && NoExit(cfg, s, l) && cfg.gpuBootTimeout >= cfg.cooldown
    ensures KeepsWorking(cfg, s.pc, Apply(cfg, s, l).pc)
  {
    if IsProvisioning(l) {
      if l.BeginStart? && s.pc.phase.Awaiting? {
        StartAdmitted(cfg, s);
      }
      CallPhaseFits(cfg, s);
      GpuCallWorks(cfg, s, s.pc.job, s.pc.phase, s.pc.startsThisCall, l);
      ProvisioningCall(cfg, s, l);
    } else {
      OthersLeaveCall(cfg, s, l);
    }
  }

  /** The call has turned to the CPU, or tries the GPU on, with less to do if anything happened. */
  predicate KeepsWorking(cfg: Config, pc: Pc, pc': Pc)
    requires OnGpu(pc)
  {
    AtCpu(pc') || (OnGpu(pc') && (pc' == pc || GpuWork(cfg, pc') < GpuWork(cfg, pc)))
  }

  lemma CallPhaseFits(cfg: Config, s: State)
    requires ProvisioningKept(cfg, s) && s.pc.Provisioning?
    ensures PhaseFits(cfg, s.pc.job, s.pc.phase)
  {
  }

  lemma ProvisioningCall(cfg: Config, s: State, l: Label)
    requires s.pc.Provisioning? && IsProvisioning(l)
    ensures Apply(cfg, s, l) == Provision(cfg, s, s.pc.job, s.pc.phase, s.pc.startsThisCall, l)
  {
  }

  lemma StartAdmitted(cfg: Config, s: State)
    requires Kept(cfg, s) && OnGpu(s.pc) && s.pc.phase.Awaiting? && NoExit(cfg, s, BeginStart)
    requires cfg.gpuBootTimeout >= cfg.cooldown
    ensures s.clock.Floor - LastStart(s, Gpu) >= cfg.cooldown
  {
    if s.pc.startsThisCall > 0 {
      RetryAdmitted(cfg, s);
    }
  }

  lemma OthersLeaveCall(cfg: Config, s: State, l: Label)
    requires s.pc.Provisioning? && !IsProvisioning(l) && !l.Restart?
    ensures Apply(cfg, s, l).pc == s.pc
  {
  }

  lemma GpuCallWorks(cfg: Config, s: State, job: Job, phase: Phase, n: nat, l: Label)
    requires s.pc == Provisioning(job, phase, n) && GpuPhase(phase) && PhaseFits(cfg, job, phase)
    requires IsProvisioning(l) && !l.WaitHealthy? && (l.EndStart? ==> l.outcome.Accepted?)
    requires l.BeginStart? && phase.Awaiting? ==> s.clock.Floor - LastStart(s, Gpu) >= cfg.cooldown
    ensures KeepsWorking(cfg, s.pc, Provision(cfg, s, job, phase, n, l).pc)
  {
  }

  lemma {:induction false} GpuCallWorksOn(cfg: Config, s: State, more: seq<Label>)
    requires Kept(cfg, s) && OnGpu(s.pc) && NoExits(cfg, s, more) && cfg.gpuBootTimeout >= cfg.cooldown
    ensures TurnsToCpu(cfg, s, more) || OwnSteps(cfg, s, more) < GpuWork(cfg, s.pc)
    decreases |more|
  {
    GpuWorkPositive(cfg, s);
    if more != [] {
      var s' := Apply(cfg, s, more[0]);
      GpuStepWorks(cfg, s, more[0]);
      KeptInStep(cfg, s, more[0]);
      if OnGpu(s'.pc) {
        GpuCallWorksOn(cfg, s', more[1..]);
      }
    }
  }

  /** Over any stretch of a run, with a boot timeout of at least the cooldown: a call that is trying the
      GPU, whose first start is not skipped, whose starts are all accepted and whose waits all fail,
      turns to the CPU, before it has taken as many steps of its own as three for each attempt left. */
  lemma GpuCallTurnsToCpu(cfg: Config, steps: seq<Label>, more: seq<Label>)
    requires OnGpu(Exec(cfg, steps).pc) && NoExits(cfg, Exec(cfg, steps), more)
    requires cfg.gpuBootTimeout >= cfg.cooldown
    requires OwnSteps(cfg, Exec(cfg, steps), more) >= GpuWork(cfg, Exec(cfg, steps).pc)
    ensures TurnsToCpu(cfg, Exec(cfg, steps), more)
  {
    AlwaysKept(cfg, steps);
    GpuCallWorksOn(cfg, Exec(cfg, steps), more);
  }

  lemma RetryAdmitted(cfg: Config, s: State)
    requires RetryClear(cfg, s) && cfg.gpuBootTimeout >= cfg.cooldown
    requires s.pc.Provisioning? && s.pc.phase.Awaiting? && s.pc.startsThisCall > 0
    requires s.pc.phase.target.Gpu? || Cpu !in s.lastStart
    ensures InStart(Apply(cfg, s, BeginStart).pc)
  {
    assert s.clock.Floor >= s.lastStart[Gpu] + cfg.gpuBootTimeout;
    match s.pc.phase.target
    case Gpu =>
    case Cpu => assert LastStart(s, Cpu) == s.lastStart[Gpu];
  }
}
