/** GPU attempts, the choice of target, and the spacing of start commands over whole runs. */
module BufferProvisioning {
  import opened Wrappers
  import opened Integers
  import opened BufferModel
  import opened BufferInvariant
  import opened BufferHistory

  // ---------------------------------------------------------------- attempts and targets

  function AcceptedGpuStarts(starts: seq<StartRecord>, uid: nat): nat {
    if starts == [] then 0
    else
      var r := starts[|starts| - 1];
      AcceptedGpuStarts(starts[..|starts| - 1], uid)
      + if r.uid == uid && r.target.Gpu? && r.outcome.Accepted? then 1 else 0
  }

  lemma {:induction false} NoAcceptedStarts(starts: seq<StartRecord>, uid: nat)
    requires forall r <- starts :: r.uid != uid
    ensures AcceptedGpuStarts(starts, uid) == 0
  {
    if starts != [] {
      NoAcceptedStarts(starts[..|starts| - 1], uid);
    }
  }

  /** The choice is one target's own address and digest, the record names that target, and the CPU
      is chosen only once the GPU attempts are used up. */
  ghost predicate ChoiceFits(cfg: Config, job: Job, choice: Choice) {
    && choice == ChoiceFor(cfg, choice.target) && choice.addr != ""
    && job.target == Some(choice.target)
    && (choice.target.Cpu? ==> CpuReady(cfg, job))
  }

  ghost predicate CpuReady(cfg: Config, job: Job) {
    job.target == Some(Cpu) && cfg.cpuAddr != "" && cfg.cpuDigest != "" && job.gpuAttempts >= cfg.maxGpuAttempts
  }

  ghost predicate PhaseFits(cfg: Config, job: Job, phase: Phase) {
    match phase
    case Entry => true
    case Awaiting(t) => if t.Gpu? then job.gpuAttempts < cfg.maxGpuAttempts else CpuReady(cfg, job)
    case Starting(t, _) => if t.Gpu? then job.gpuAttempts < cfg.maxGpuAttempts else CpuReady(cfg, job)
    case Waiting(t, _) => if t.Gpu? then job.target == Some(Gpu) else CpuReady(cfg, job)
    case CpuEntry => job.gpuAttempts >= cfg.maxGpuAttempts
    case CpuProbing => CpuReady(cfg, job)
  }

  ghost predicate PcFits(cfg: Config, pc: Pc) {
    match pc
    case Provisioning(job, phase, _) => PhaseFits(cfg, job, phase)
    case Rechecking(job, choice) => ChoiceFits(cfg, job, choice)
    case Sending(job, _, choice) => ChoiceFits(cfg, job, choice)
    case Marking(job, _, choice) => ChoiceFits(cfg, job, choice) && choice.digest != ""
    case _ => true
  }

  /** The persisted count is the number of accepted GPU starts for that job. */
  ghost predicate AttemptsCounted(cfg: Config, s: State, job: Job) {
    && job.gpuAttempts == AcceptedGpuStarts(s.log.starts, job.uid)
    && job.gpuAttempts <= Max(0, cfg.maxGpuAttempts)
  }

  ghost predicate SendFits(cfg: Config, r: SendRecord) {
    && r.choice == ChoiceFor(cfg, r.choice.target) && r.choice.addr != "" && r.choice.digest != ""
    && (r.choice.target.Cpu? ==> r.gpuAttempts >= cfg.maxGpuAttempts)
  }

  ghost predicate ProvisioningKept(cfg: Config, s: State) {
    && (forall r <- s.log.starts :: r.uid < s.nextUid)
    && (forall id <- s.dirs :: AttemptsCounted(cfg, s, s.dirs[id].record))
    && PcFits(cfg, s.pc)
    && (forall r <- s.log.sends :: SendFits(cfg, r))
  }

  lemma ProvisioningKeptInStep(cfg: Config, s: State, l: Label)
    requires Structure(cfg, s) && ProvisioningKept(cfg, s)
    ensures ProvisioningKept(cfg, Apply(cfg, s, l))
  {
    PcFitsInStep(cfg, s, l);
    SendsFitInStep(cfg, s, l);
    AttemptsCountedInStep(cfg, s, l);
  }

  lemma AttemptsCountedInStep(cfg: Config, s: State, l: Label)
    requires Structure(cfg, s) && ProvisioningKept(cfg, s)
    ensures
      var s' := Apply(cfg, s, l);
      && (forall r <- s'.log.starts :: r.uid < s'.nextUid)
      && (forall id <- s'.dirs :: AttemptsCounted(cfg, s', s'.dirs[id].record))
  {
    if l.EndStart? {
      if s.pc.Provisioning? && s.pc.phase.Starting? {
        EndStartCounts(cfg, s, l.outcome);
      }
    } else {
      RecordsEvolveInStep(cfg, s, l);
      LogsInStep(cfg, s, l);
      SameStartsCount(cfg, s, Apply(cfg, s, l), l);
    }
  }

  lemma PcFitsInStep(cfg: Config, s: State, l: Label)
    requires PcFits(cfg, s.pc)
    ensures PcFits(cfg, Apply(cfg, s, l).pc)
  {
    if IsProvisioning(l) {
      PcFitsInProvision(cfg, s, l);
    } else {
      ProvisioningBegins(cfg, s, l);
      DispatchKeepsChoice(cfg, s, l);
    }
  }

  lemma PcFitsInProvision(cfg: Config, s: State, l: Label)
    requires PcFits(cfg, s.pc) && IsProvisioning(l)
    ensures PcFits(cfg, Apply(cfg, s, l).pc)
  {
    if s.pc.Provisioning? {
      ProvisionFits(cfg, s, s.pc.job, s.pc.phase, s.pc.startsThisCall, l);
    }
  }

  lemma ProvisionFits(cfg: Config, s: State, job: Job, phase: Phase, n: nat, l: Label)
    requires PhaseFits(cfg, job, phase) && PcFits(cfg, s.pc)
    ensures PcFits(cfg, Provision(cfg, s, job, phase, n, l).pc)
  {
  }

  lemma DispatchKeepsChoice(cfg: Config, s: State, l: Label)
    requires !IsProvisioning(l)
    ensures
      var pc' := Apply(cfg, s, l).pc;
      && (pc'.Rechecking? ==> pc' == s.pc)
      && (pc'.Sending? ==> (s.pc.Rechecking? || s.pc.Sending?) && pc'.job == s.pc.job && pc'.choice == s.pc.choice)
      && (pc'.Marking? ==>
            pc' == s.pc
            || (s.pc.Sending? && pc'.job == s.pc.job && pc'.choice == s.pc.choice && pc'.choice.digest != ""))
  {
  }

  lemma SendsFitInStep(cfg: Config, s: State, l: Label)
    requires PcFits(cfg, s.pc) && forall r <- s.log.sends :: SendFits(cfg, r)
    ensures forall r <- Apply(cfg, s, l).log.sends :: SendFits(cfg, r)
  {
    LogsInStep(cfg, s, l);
  }

  lemma SameStartsCount(cfg: Config, s: State, s': State, l: Label)
    requires ProvisioningKept(cfg, s) && RecordsEvolve(s, s', l) && !l.EndStart? && s'.log.starts == s.log.starts
    ensures forall r <- s'.log.starts :: r.uid < s'.nextUid
    ensures forall id <- s'.dirs :: AttemptsCounted(cfg, s', s'.dirs[id].record)
  {
    NoAcceptedStarts(s.log.starts, s.nextUid);
  }

  lemma EndStartStamps(cfg: Config, s: State, outcome: StartOutcome)
    requires InStart(s.pc)
    ensures
      var s' := Apply(cfg, s, EndStart(outcome));
      var (t, now) := (s.pc.phase.target, s.pc.phase.now);
      && s'.log.starts == s.log.starts + [StartRecord(s.pc.job.uid, t, now, outcome)]
      && s'.lastStart == s.lastStart[t := now] && s'.lastAnyStart == now
      && s'.clock == s.clock && !InStart(s'.pc)
  {
  }

  lemma EndStartCounts(cfg: Config, s: State, outcome: StartOutcome)
    requires Structure(cfg, s) && ProvisioningKept(cfg, s) && s.pc.Provisioning? && s.pc.phase.Starting?
    ensures
      var s' := Apply(cfg, s, EndStart(outcome));
      && (forall r <- s'.log.starts :: r.uid < s'.nextUid)
      && (forall id <- s'.dirs :: AttemptsCounted(cfg, s', s'.dirs[id].record))
  {
    ProvisioningHolds(cfg, s);
    EndStartStamps(cfg, s, outcome);
    EndStartSaves(cfg, s, outcome);
    StartCounted(cfg, s, Apply(cfg, s, EndStart(outcome)), s.pc.job.id, outcome);
  }

  /** An accepted GPU start is counted on the record, any other start changes none. */
  lemma EndStartSaves(cfg: Config, s: State, outcome: StartOutcome)
    requires s.pc.Provisioning? && s.pc.phase.Starting?
    requires s.pc.job.id in s.dirs && s.dirs[s.pc.job.id].record == s.pc.job
    ensures
      var s' := Apply(cfg, s, EndStart(outcome));
      var counted := outcome.Accepted? && s.pc.phase.target.Gpu?;
      && s'.nextUid == s.nextUid && s.pc.job.id in s'.dirs
      && s'.dirs == s.dirs[s.pc.job.id := s'.dirs[s.pc.job.id]]
      && s'.dirs[s.pc.job.id].record.uid == s.pc.job.uid
      && s'.dirs[s.pc.job.id].record.gpuAttempts == s.pc.job.gpuAttempts + (if counted then 1 else 0)
  {
  }

  lemma StartCounted(cfg: Config, s: State, s': State, id: JobId, outcome: StartOutcome)
    requires Identities(s) && ProvisioningKept(cfg, s) && s.pc.Provisioning? && s.pc.phase.Starting?
    requires id in s.dirs && id in s'.dirs && s.pc.job == s.dirs[id].record && s'.nextUid == s.nextUid
    requires s'.log.starts == s.log.starts + [StartRecord(s.pc.job.uid, s.pc.phase.target, s.pc.phase.now, outcome)]
    requires s'.dirs == s.dirs[id := s'.dirs[id]] && s'.dirs[id].record.uid == s.pc.job.uid
    requires s'.dirs[id].record.gpuAttempts ==
      s.pc.job.gpuAttempts + (if outcome.Accepted? && s.pc.phase.target.Gpu? then 1 else 0)
    ensures forall r <- s'.log.starts :: r.uid < s'.nextUid
    ensures forall k <- s'.dirs :: AttemptsCounted(cfg, s', s'.dirs[k].record)
  {
    assert s'.log.starts[..|s.log.starts|] == s.log.starts;
    forall k <- s'.dirs ensures AttemptsCounted(cfg, s', s'.dirs[k].record) {
      assert AttemptsCounted(cfg, s, s.dirs[k].record);
    }
  }

  // ---------------------------------------------------------------- spacing of starts

  function LatestStart(starts: seq<StartRecord>, t: Target): Option<int> {
    if starts == [] then None
    else if starts[|starts| - 1].target == t then Some(starts[|starts| - 1].now)
    else LatestStart(starts[..|starts| - 1], t)
  }

  lemma {:induction false} LatestStartIsLast(starts: seq<StartRecord>, t: Target)
    ensures LatestStart(starts, t).None? ==> forall r <- starts :: r.target != t
    ensures LatestStart(starts, t).Some? ==>
      exists k :: 0 <= k < |starts| && starts[k].target == t && starts[k].now == LatestStart(starts, t).value
               && forall j :: k < j < |starts| ==> starts[j].target != t
  {
    if starts != [] {
      var last := |starts| - 1;
      LatestStartIsLast(starts[..last], t);
      assert starts == starts[..last] + [starts[last]];
      if starts[last].target != t && LatestStart(starts, t).Some? {
        var k :| 0 <= k < last && starts[..last][k].target == t && starts[..last][k].now == LatestStart(starts, t).value
               && forall j :: k < j < last ==> starts[..last][j].target != t;
        assert starts[k].target == t;
      }
    }
  }

  /** Two starts of one target are the cooldown apart; starts are logged in time order. */
  ghost predicate Spaced(cfg: Config, starts: seq<StartRecord>) {
    && (forall i, j :: 0 <= i < j < |starts| ==> starts[i].now <= starts[j].now)
    && (forall i, j :: 0 <= i < j < |starts| && starts[i].target == starts[j].target ==>
          starts[j].now - starts[i].now >= cfg.cooldown)
  }

  ghost predicate StampsLogged(s: State) {
    && (forall t: Target :: if t in s.lastStart then LatestStart(s.log.starts, t) == Some(s.lastStart[t])
                            else LatestStart(s.log.starts, t) == None)
    && s.lastAnyStart == (if s.log.starts == [] then 0 else s.log.starts[|s.log.starts| - 1].now)
  }

  /** A start under way was admitted by the cooldown and is not older than any logged start. */
  ghost predicate AdmittedStart(cfg: Config, s: State, t: Target, now: int) {
    && now as real <= s.clock
    && (t in s.lastStart ==> now - s.lastStart[t] >= cfg.cooldown)
    && (forall r <- s.log.starts :: r.now <= now)
  }

  ghost predicate CooldownKept(cfg: Config, s: State) {
    && Spaced(cfg, s.log.starts)
    && StampsLogged(s)
    && (forall r <- s.log.starts :: r.now as real <= s.clock)
    && (InStart(s.pc) ==> AdmittedStart(cfg, s, s.pc.phase.target, s.pc.phase.now))
  }

  lemma CooldownKeptInStep(cfg: Config, s: State, l: Label)
    requires CooldownKept(cfg, s)
    ensures CooldownKept(cfg, Apply(cfg, s, l))
  {
    LogsInStep(cfg, s, l);
    if l.EndStart? {
      if InStart(s.pc) {
        EndStartSpaced(cfg, s, l.outcome);
      }
    } else {
      StartsAdmitted(cfg, s, l);
    }
  }

  lemma StartsAdmitted(cfg: Config, s: State, l: Label)
    requires CooldownKept(cfg, s) && !l.EndStart?
    ensures
      var s' := Apply(cfg, s, l);
      InStart(s'.pc) ==> AdmittedStart(cfg, s', s'.pc.phase.target, s'.pc.phase.now)
  {
    LogsInStep(cfg, s, l);
    if l.BeginStart? {
      BeginStartAdmits(cfg, s);
    } else {
      OnlyBeginStartStarts(cfg, s, l);
    }
  }

  lemma BeginStartAdmits(cfg: Config, s: State)
    requires CooldownKept(cfg, s)
    ensures
      var s' := Apply(cfg, s, BeginStart);
      InStart(s'.pc) ==> AdmittedStart(cfg, s', s'.pc.phase.target, s'.pc.phase.now)
  {
  }

  lemma OnlyBeginStartStarts(cfg: Config, s: State, l: Label)
    requires !l.BeginStart?
    ensures InStart(Apply(cfg, s, l).pc) ==> Apply(cfg, s, l).pc == s.pc
  {
    if !IsProvisioning(l) {
      ProvisioningBegins(cfg, s, l);
    }
  }

  lemma EndStartSpaced(cfg: Config, s: State, outcome: StartOutcome)
    requires CooldownKept(cfg, s) && InStart(s.pc)
    ensures CooldownKept(cfg, Apply(cfg, s, EndStart(outcome)))
  {
    var (t, now) := (s.pc.phase.target, s.pc.phase.now);
    var r := StartRecord(s.pc.job.uid, t, now, outcome);
    EndStartStamps(cfg, s, outcome);
    AppendSpaced(cfg, s.log.starts, r);
    StampAppended(s, Apply(cfg, s, EndStart(outcome)), r);
  }

  lemma StampAppended(s: State, s': State, r: StartRecord)
    requires StampsLogged(s) && s'.log.starts == s.log.starts + [r]
    requires s'.lastStart == s.lastStart[r.target := r.now] && s'.lastAnyStart == r.now
    ensures StampsLogged(s')
  {
    assert s'.log.starts[..|s.log.starts|] == s.log.starts;
  }

  lemma AppendSpaced(cfg: Config, starts: seq<StartRecord>, r: StartRecord)
    requires Spaced(cfg, starts) && forall q <- starts :: q.now <= r.now
    requires LatestStart(starts, r.target).Some? ==> r.now - LatestStart(starts, r.target).value >= cfg.cooldown
    ensures Spaced(cfg, starts + [r])
  {
    SameTargetEarlier(cfg, starts, r);
    assert forall i :: 0 <= i < |starts| ==> starts[i] in starts;
  }

  lemma SameTargetEarlier(cfg: Config, starts: seq<StartRecord>, r: StartRecord)
    requires forall i, j :: 0 <= i < j < |starts| ==> starts[i].now <= starts[j].now
    requires LatestStart(starts, r.target).Some? ==> r.now - LatestStart(starts, r.target).value >= cfg.cooldown
    ensures forall i :: 0 <= i < |starts| && starts[i].target == r.target ==> r.now - starts[i].now >= cfg.cooldown
  {
    LatestStartIsLast(starts, r.target);
    if LatestStart(starts, r.target).Some? {
      var k :| 0 <= k < |starts| && starts[k].target == r.target && starts[k].now == LatestStart(starts, r.target).value
             && forall j :: k < j < |starts| ==> starts[j].target != r.target;
      forall i | 0 <= i < |starts| && starts[i].target == r.target
        ensures r.now - starts[i].now >= cfg.cooldown
      {
        assert i <= k && starts[i].now <= starts[k].now;
      }
    } else {
      assert forall i :: 0 <= i < |starts| ==> starts[i] in starts;
    }
  }

  // ---------------------------------------------------------------- retries inside one call

  /** After an accepted GPU start in this call, the boot timeout has passed (or will have, when the
      wait ends) since the timestamp every later start in the call is measured against. */
  ghost predicate RetryClear(cfg: Config, s: State) {
    s.pc.Provisioning? && s.pc.startsThisCall > 0 ==>
      match s.pc.phase
      case Entry => false
      case Awaiting(_) => BootTimePassed(cfg, s)
      case CpuEntry => BootTimePassed(cfg, s)
      case CpuProbing => BootTimePassed(cfg, s)
      case Waiting(t, deadline) =>
        t.Gpu? ==> GpuStampIsLatest(s) && deadline >= (s.lastStart[Gpu] + cfg.gpuBootTimeout) as real
      case Starting(_, _) => true
  }

  ghost predicate GpuStampIsLatest(s: State) {
    Gpu in s.lastStart && s.lastAnyStart == s.lastStart[Gpu]
  }

  ghost predicate BootTimePassed(cfg: Config, s: State) {
    GpuStampIsLatest(s) && s.clock >= (s.lastStart[Gpu] + cfg.gpuBootTimeout) as real
  }

  lemma RetryClearInStep(cfg: Config, s: State, l: Label)
    requires CooldownKept(cfg, s) && RetryClear(cfg, s)
    ensures RetryClear(cfg, Apply(cfg, s, l))
  {
    if IsProvisioning(l) {
      if s.pc.Provisioning? {
        RetryClearInProvision(cfg, s, l);
      }
    } else {
      LogsInStep(cfg, s, l);
      ProvisioningBegins(cfg, s, l);
    }
  }

  lemma RetryClearInProvision(cfg: Config, s: State, l: Label)
    requires CooldownKept(cfg, s) && RetryClear(cfg, s) && IsProvisioning(l) && s.pc.Provisioning?
    ensures RetryClear(cfg, Apply(cfg, s, l))
  {
  }

  /** A provisioning call begins by a pick, with no start made, and other steps leave it alone. */
  lemma ProvisioningBegins(cfg: Config, s: State, l: Label)
    requires !IsProvisioning(l)
    ensures
      var pc' := Apply(cfg, s, l).pc;
      pc'.Provisioning? ==> pc' == s.pc || (l.Pick? && pc'.phase.Entry? && pc'.startsThisCall == 0)
  {
  }
}
