/** Progress: with no new arrivals, every good scheduler tick finishes a job, so n queued jobs are
    all complete, in queue order, after n + 1 good ticks among any number of bad ones. */
module BufferProgress {
  import opened BufferModel
  import opened BufferInvariant
  import opened BufferTheorems

  // ---------------------------------------------------------------- ticks

  predicate IsArrival(l: Label) {
    l.Create? || l.Upload?
  }

  /** The steps from inside a tick to its end, without arrivals. */
  ghost predicate RestOfTick(cfg: Config, s: State, steps: seq<Label>)
    decreases |steps|
  {
    if s.pc.Idle? then steps == []
    else steps != [] && !IsArrival(steps[0]) && RestOfTick(cfg, Apply(cfg, s, steps[0]), steps[1..])
  }

  /** A tick: sleep, then cleanup, finalize and dispatch until the scheduler sleeps again. */
  ghost predicate Tick(cfg: Config, s: State, steps: seq<Label>)
    decreases |steps|
  {
    && s.pc.Idle? && steps != []
    && (if steps[0].Advance? then Tick(cfg, Apply(cfg, s, steps[0]), steps[1..])
        else steps[0].BeginCleanup? && RestOfTick(cfg, Apply(cfg, s, steps[0]), steps[1..]))
  }

  /** Nothing goes wrong in this step: the dispatched job's grace has passed and its TEE is gone,
      provisioning does not give up, the send succeeds, the process is not restarted. */
  ghost predicate GoodStep(cfg: Config, s: State, l: Label) {
    && !IsArrival(l) && !l.Restart? && !l.SkipYoung? && l != ProbeAssigned(true) && l != Send(false)
    && !(s.pc.Sending? && s.pc.choice.digest == "")
    && !(s.pc.Provisioning? && Apply(cfg, s, l).pc.Idle?)
  }

  ghost predicate GoodRest(cfg: Config, s: State, steps: seq<Label>)
    decreases |steps|
  {
    if s.pc.Idle? then steps == []
    else steps != [] && GoodStep(cfg, s, steps[0]) && GoodRest(cfg, Apply(cfg, s, steps[0]), steps[1..])
  }

  ghost predicate GoodTick(cfg: Config, s: State, steps: seq<Label>)
    decreases |steps|
  {
    && s.pc.Idle? && steps != []
    && (if steps[0].Advance? then GoodTick(cfg, Apply(cfg, s, steps[0]), steps[1..])
        else steps[0].BeginCleanup? && GoodRest(cfg, Apply(cfg, s, steps[0]), steps[1..]))
  }

  // ---------------------------------------------------------------- what one good tick does

  /** Inside a good tick: what is in flight is on the list to finalize until it is finalized. */
  ghost predicate OnTrack(s: State) {
    match s.pc
    case Finalizing(_, todo) => |todo| == |s.log.marked| - |s.log.completed|
    case TeeGone(_, todo) => |todo| == |s.log.marked| - |s.log.completed| > 0
    case Picking => |s.log.marked| == |s.log.completed|
    case _ => true
  }

  /** Everything marked before is complete, and the head of the queue is marked. */
  ghost predicate TickDone(s: State, f: State) {
    && f.log.enqueued == s.log.enqueued
    && f.log.completed == s.log.marked
    && (if s.queue == [] then f.queue == [] && f.log.marked == s.log.marked
        else f.queue == s.queue[1..] && f.log.marked == s.log.marked + [s.queue[0]])
  }

  lemma GoodStepAdvances(cfg: Config, s: State, l: Label)
    requires Structure(cfg, s) && OnTrack(s) && !s.pc.Idle? && GoodStep(cfg, s, l)
    ensures
      var s' := Apply(cfg, s, l);
      if s'.pc.Idle? then TickDone(s, s')
      else
        && OnTrack(s') && s'.queue == s.queue
        && s'.log.marked == s.log.marked && s'.log.enqueued == s.log.enqueued
  {
    match l
    case BeginFinalize(order) => FinalizeListsInFlight(cfg, s, order);
    case CommitFinalize => FinalizeCompletes(cfg, s);
    case Pick => PickTakesHead(cfg, s);
    case Recheck => RecheckQuiet(cfg, s);
    case Mark =>
      if s.pc.Marking? {
        MarkFinishesTick(cfg, s);
      }
    case _ => QuietStep(cfg, s, l);
  }

  lemma RecheckQuiet(cfg: Config, s: State)
    requires Structure(cfg, s) && OnTrack(s)
    ensures
      var s' := Apply(cfg, s, Recheck);
      && (s'.pc.Idle? ==> s.pc.Idle?) && OnTrack(s') && s'.queue == s.queue
      && s'.log.marked == s.log.marked && s'.log.enqueued == s.log.enqueued
  {
    if s.pc.Rechecking? {
      RecheckKeepsStructure(cfg, s);
    }
  }

  lemma MarkFinishesTick(cfg: Config, s: State)
    requires Structure(cfg, s) && s.pc.Marking?
    ensures Apply(cfg, s, Mark).pc.Idle? && TickDone(s, Apply(cfg, s, Mark))
  {
    MarkKeepsQueue(cfg, s);
    assert s.log.completed == s.log.marked[..|s.log.marked|];
  }

  lemma QuietStep(cfg: Config, s: State, l: Label)
    requires Structure(cfg, s) && OnTrack(s) && !s.pc.Idle? && GoodStep(cfg, s, l)
    requires IsProvisioning(l) || IsLocal(l) || l.Delete?
    ensures
      var s' := Apply(cfg, s, l);
      && !s'.pc.Idle? && OnTrack(s') && s'.queue == s.queue
      && s'.log.marked == s.log.marked && s'.log.enqueued == s.log.enqueued
  {
    if IsProvisioning(l) {
      QuietProvisioning(cfg, s, l);
    } else if IsLocal(l) {
      LocalStepKeepsTables(cfg, s, l);
      QuietLocal(cfg, s, l);
    }
  }

  lemma QuietProvisioning(cfg: Config, s: State, l: Label)
    requires Structure(cfg, s) && OnTrack(s) && !s.pc.Idle? && GoodStep(cfg, s, l) && IsProvisioning(l)
    ensures
      var s' := Apply(cfg, s, l);
      && !s'.pc.Idle? && OnTrack(s') && s'.queue == s.queue
      && s'.log.marked == s.log.marked && s'.log.enqueued == s.log.enqueued
  {
    ProvisioningIsQuiet(cfg, s, l);
    if !s.pc.Provisioning? {
      ProvisionElsewhereDoesNothing(cfg, s, l);
    }
  }

  /** A provisioning step leaves the queue and most of the history alone. */
  lemma ProvisioningIsQuiet(cfg: Config, s: State, l: Label)
    requires LocalsKept(cfg, s) && IsProvisioning(l)
    ensures
      var s' := Apply(cfg, s, l);
      && s'.queue == s.queue && s'.log == s.log.(starts := s'.log.starts)
      && (s.pc.Provisioning? ==> s'.pc.Idle? || s'.pc.Provisioning? || s'.pc.Rechecking?)
  {
    if s.pc.Provisioning? {
      ProvisioningHolds(cfg, s);
      ProvisionOnlyProgresses(cfg, s, l);
    } else {
      ProvisionElsewhereDoesNothing(cfg, s, l);
    }
  }

  lemma QuietLocal(cfg: Config, s: State, l: Label)
    requires OnTrack(s) && !s.pc.Idle? && GoodStep(cfg, s, l) && IsLocal(l)
    requires LocalsKept(cfg, s) && |s.log.completed| <= |s.log.marked|
    ensures !Apply(cfg, s, l).pc.Idle? && OnTrack(Apply(cfg, s, l))
  {
  }

  lemma FinalizeListsInFlight(cfg: Config, s: State, order: seq<JobId>)
    requires Structure(cfg, s) && OnTrack(s)
    ensures OnTrack(Apply(cfg, s, BeginFinalize(order)))
  {
    assert |order| >= 1 ==> order[0] in order;
    assert |order| >= 2 ==> order[1] in order;
    if s.pc.Cleaned? && ListsDispatched(s, order) && |s.log.marked| > |s.log.completed| {
      assert HasStatus(s, s.log.marked[|s.log.completed|], Dispatched);
    }
  }

  lemma FinalizeCompletes(cfg: Config, s: State)
    requires Structure(cfg, s) && OnTrack(s)
    ensures
      var s' := Apply(cfg, s, CommitFinalize);
      && (!s.pc.Idle? ==> !s'.pc.Idle?) && OnTrack(s') && s'.queue == s.queue
      && s'.log.marked == s.log.marked && s'.log.enqueued == s.log.enqueued
  {
  }

  lemma PickTakesHead(cfg: Config, s: State)
    requires Structure(cfg, s) && OnTrack(s) && !s.pc.Idle?
    ensures
      var s' := Apply(cfg, s, Pick);
      && (if s'.pc.Idle? then s.queue == [] && s.log.completed == s.log.marked else OnTrack(s'))
      && s'.queue == s.queue && s'.log == s.log
  {
    NextIsHead(s);
    assert |s.log.marked| == |s.log.completed| ==> s.log.completed == s.log.marked[..|s.log.marked|];
  }

  lemma {:induction false} GoodRestCompletes(cfg: Config, s: State, steps: seq<Label>)
    requires Structure(cfg, s) && OnTrack(s) && !s.pc.Idle? && GoodRest(cfg, s, steps)
    ensures TickDone(s, Continue(cfg, s, steps)) && Continue(cfg, s, steps).pc.Idle?
    decreases |steps|
  {
    var s' := Apply(cfg, s, steps[0]);
    GoodStepAdvances(cfg, s, steps[0]);
    if !s'.pc.Idle? {
      StructureStep(cfg, s, steps[0]);
      GoodRestCompletes(cfg, s', steps[1..]);
    }
  }

  /** One good tick completes what was in flight and dispatches the head of the queue. */
  lemma {:induction false} GoodTickCompletes(cfg: Config, s: State, steps: seq<Label>)
    requires Structure(cfg, s) && GoodTick(cfg, s, steps)
    ensures TickDone(s, Continue(cfg, s, steps)) && Continue(cfg, s, steps).pc.Idle?
    decreases |steps|
  {
    var s' := Apply(cfg, s, steps[0]);
    StructureStep(cfg, s, steps[0]);
    if steps[0].Advance? {
      GoodTickCompletes(cfg, s', steps[1..]);
    } else {
      GoodRestCompletes(cfg, s', steps[1..]);
    }
  }

  // ---------------------------------------------------------------- the measure

  /** How many good ticks are still needed. */
  function TicksNeeded(s: State): nat {
    |s.queue| + if s.queue != [] || InFlight(s) != [] then 1 else 0
  }

  /** Without arrivals no step, good or bad, loses ground. */
  lemma StepLosesNoGround(cfg: Config, s: State, l: Label)
    requires Structure(cfg, s) && !IsArrival(l)
    ensures
      var s' := Apply(cfg, s, l);
      TicksNeeded(s') <= TicksNeeded(s) && s'.log.enqueued == s.log.enqueued
  {
    if l.Mark? {
      if s.pc.Marking? {
        MarkKeepsQueue(cfg, s);
      }
    } else {
      OtherStepsLoseNoGround(cfg, s, l);
    }
  }

  lemma OtherStepsLoseNoGround(cfg: Config, s: State, l: Label)
    requires Structure(cfg, s) && !IsArrival(l) && !l.Mark?
    ensures
      var s' := Apply(cfg, s, l);
      && s'.queue == s.queue && s'.log.marked == s.log.marked && s'.log.enqueued == s.log.enqueued
      && |s'.log.completed| >= |s.log.completed|
  {
    if IsProvisioning(l) {
      ProvisioningIsQuiet(cfg, s, l);
    } else if IsLocal(l) {
      LocalStepKeepsTables(cfg, s, l);
    } else {
      TableStepLosesNoGround(cfg, s, l);
    }
  }

  lemma TableStepLosesNoGround(cfg: Config, s: State, l: Label)
    requires !IsArrival(l) && !l.Mark? && !IsProvisioning(l) && !IsLocal(l)
    ensures
      var s' := Apply(cfg, s, l);
      && s'.queue == s.queue && s'.log.marked == s.log.marked && s'.log.enqueued == s.log.enqueued
      && |s'.log.completed| >= |s.log.completed|
  {
  }

  lemma {:induction false} RestLosesNoGround(cfg: Config, s: State, steps: seq<Label>)
    requires Structure(cfg, s) && RestOfTick(cfg, s, steps)
    ensures
      var f := Continue(cfg, s, steps);
      && Structure(cfg, f) && f.pc.Idle?
      && TicksNeeded(f) <= TicksNeeded(s) && f.log.enqueued == s.log.enqueued
    decreases |steps|
  {
    if !s.pc.Idle? {
      StructureStep(cfg, s, steps[0]);
      StepLosesNoGround(cfg, s, steps[0]);
      RestLosesNoGround(cfg, Apply(cfg, s, steps[0]), steps[1..]);
    }
  }

  lemma {:induction false} TickLosesNoGround(cfg: Config, s: State, steps: seq<Label>)
    requires Structure(cfg, s) && Tick(cfg, s, steps)
    ensures
      var f := Continue(cfg, s, steps);
      && Structure(cfg, f) && f.pc.Idle?
      && TicksNeeded(f) <= TicksNeeded(s) && f.log.enqueued == s.log.enqueued
    decreases |steps|
  {
    var s' := Apply(cfg, s, steps[0]);
    StructureStep(cfg, s, steps[0]);
    StepLosesNoGround(cfg, s, steps[0]);
    if steps[0].Advance? {
      TickLosesNoGround(cfg, s', steps[1..]);
    } else {
      RestLosesNoGround(cfg, s', steps[1..]);
    }
  }

  // ---------------------------------------------------------------- many ticks

  ghost predicate Ticks(cfg: Config, s: State, ticks: seq<seq<Label>>)
    decreases |ticks|
  {
    ticks != [] ==> Tick(cfg, s, ticks[0]) && Ticks(cfg, Continue(cfg, s, ticks[0]), ticks[1..])
  }

  ghost function GoodTicks(cfg: Config, s: State, ticks: seq<seq<Label>>): nat
    decreases |ticks|
  {
    if ticks == [] then 0
    else (if GoodTick(cfg, s, ticks[0]) then 1 else 0) + GoodTicks(cfg, Continue(cfg, s, ticks[0]), ticks[1..])
  }

  function AfterTicks(cfg: Config, s: State, ticks: seq<seq<Label>>): State
    decreases |ticks|
  {
    if ticks == [] then s else AfterTicks(cfg, Continue(cfg, s, ticks[0]), ticks[1..])
  }

  lemma TickDoneGains(s: State, f: State)
    requires TickDone(s, f)
    ensures TicksNeeded(f) <= Clamp(TicksNeeded(s) - 1)
  {
  }

  /** One tick, good or bad, within its share of the measure. */
  lemma TickGains(cfg: Config, s: State, tick: seq<Label>)
    requires Structure(cfg, s) && Tick(cfg, s, tick)
    ensures
      var f := Continue(cfg, s, tick);
      && Structure(cfg, f) && f.log.enqueued == s.log.enqueued
      && TicksNeeded(f) <= TicksNeeded(s)
      && (GoodTick(cfg, s, tick) ==> TicksNeeded(f) <= Clamp(TicksNeeded(s) - 1))
  {
    TickLosesNoGround(cfg, s, tick);
    if GoodTick(cfg, s, tick) {
      GoodTickCompletes(cfg, s, tick);
      TickDoneGains(s, Continue(cfg, s, tick));
    }
  }

  lemma {:induction false} GoodTicksCount(cfg: Config, s: State, ticks: seq<seq<Label>>)
    requires Structure(cfg, s) && Ticks(cfg, s, ticks)
    ensures
      var f := AfterTicks(cfg, s, ticks);
      && Structure(cfg, f) && f.log.enqueued == s.log.enqueued
      && TicksNeeded(f) <= Clamp(TicksNeeded(s) - GoodTicks(cfg, s, ticks))
    decreases |ticks|, 1
  {
    if ticks != [] {
      TickGains(cfg, s, ticks[0]);
      CountFirst(cfg, s, Continue(cfg, s, ticks[0]), ticks);
    }
  }

  /** The first tick's share of the count, then the rest's. */
  lemma {:induction false} CountFirst(cfg: Config, s: State, s': State, ticks: seq<seq<Label>>)
    requires ticks != [] && s' == Continue(cfg, s, ticks[0]) && Structure(cfg, s') && Ticks(cfg, s', ticks[1..])
    requires s'.log.enqueued == s.log.enqueued && TicksNeeded(s') <= TicksNeeded(s)
    requires GoodTick(cfg, s, ticks[0]) ==> TicksNeeded(s') <= Clamp(TicksNeeded(s) - 1)
    ensures
      var f := AfterTicks(cfg, s', ticks[1..]);
      && Structure(cfg, f) && f.log.enqueued == s.log.enqueued
      && TicksNeeded(f) <= Clamp(TicksNeeded(s) - GoodTicks(cfg, s, ticks))
    decreases |ticks|, 0
  {
    GoodTicksCount(cfg, s', ticks[1..]);
  }

  function Clamp(n: int): nat {
    if n < 0 then 0 else n
  }

  /** From any state between ticks of any run, once the ticks that follow, without arrivals, include
      one good tick more than there are queued jobs, every job ever enqueued is complete, in the
      order of enqueueing, and nothing is queued or dispatched. */
  lemma AllJobsComplete(cfg: Config, steps: seq<Label>, ticks: seq<seq<Label>>)
    requires Ticks(cfg, Exec(cfg, steps), ticks)
    requires GoodTicks(cfg, Exec(cfg, steps), ticks) > |Exec(cfg, steps).queue|
    ensures
      var s, f := Exec(cfg, steps), AfterTicks(cfg, Exec(cfg, steps), ticks);
      && f.queue == []
      && f.log.completed == f.log.enqueued == s.log.completed + InFlight(s) + s.queue
      && forall id :: !HasStatus(f, id, Queued) && !HasStatus(f, id, Dispatched)
  {
    AlwaysKept(cfg, steps);
    FifoConservation(cfg, steps);
    GoodTicksCount(cfg, Exec(cfg, steps), ticks);
    NothingLeft(cfg, AfterTicks(cfg, Exec(cfg, steps), ticks));
  }

  lemma NothingLeft(cfg: Config, f: State)
    requires Structure(cfg, f) && TicksNeeded(f) == 0
    ensures f.queue == [] && f.log.completed == f.log.enqueued
    ensures forall id :: !HasStatus(f, id, Queued) && !HasStatus(f, id, Dispatched)
  {
    InFlightIsDispatched(f);
    QueueIsQueued(f);
  }

  // ---------------------------------------------------------------- good ticks exist

  /** Both targets are configured. */
  predicate Configured(cfg: Config) {
    cfg.gpuAddr != "" && cfg.gpuDigest != "" && cfg.cpuAddr != "" && cfg.cpuDigest != ""
  }

  predicate GraceOver(cfg: Config, job: Job, now: int) {
    now - job.dispatchedAt >= cfg.grace
  }

  ghost predicate AllGraceOver(cfg: Config, s: State) {
    forall id <- s.dirs :: HasStatus(s, id, Dispatched) ==> GraceOver(cfg, s.dirs[id].record, s.clock.Floor)
  }

  /** The states of a tick in which everything goes well: grace periods are over, and provisioning
      finds a healthy target at its first probe. */
  ghost predicate GoesWell(cfg: Config, s: State) {
    match s.pc
    case Idle => false
    case Cleaning(_) => AllGraceOver(cfg, s)
    case Cleaned => AllGraceOver(cfg, s)
    case Finalizing(now, todo) => todo != [] ==> GraceOver(cfg, todo[0], now)
    case TeeGone(_, _) => true
    case Picking => true
    case Provisioning(job, phase, _) => phase.Entry? || phase.CpuEntry? || phase.CpuProbing?
    case Rechecking(_, choice) => choice.digest != ""
    case Sending(_, _, choice) => choice.digest != ""
    case Marking(_, _, _) => true
  }

  function GoodLabel(cfg: Config, s: State): Label {
    match s.pc
    case Idle => BeginCleanup
    case Cleaning(_) => EndCleanup
    case Cleaned => BeginFinalize(s.log.marked[if |s.log.completed| <= |s.log.marked| then |s.log.completed| else 0..])
    case Finalizing(_, todo) => if todo == [] then EndFinalize else ProbeAssigned(false)
    case TeeGone(_, _) => CommitFinalize
    case Picking => Pick
    case Provisioning(job, phase, _) =>
      if phase.Entry? then (if job.gpuAttempts >= cfg.maxGpuAttempts then GpuExhausted else ProbeGpu(true))
      else if phase.CpuEntry? then EnterCpu
      else ProbeCpu(true)
    case Rechecking(_, _) => Recheck
    case Sending(_, _, _) => Send(true)
    case Marking(_, _, _) => Mark
  }

  function StepsLeft(pc: Pc): nat {
    match pc
    case Idle => 0
    case Cleaning(_) => 14
    case Cleaned => 13
    case Finalizing(_, todo) => if todo == [] then 9 else 10 + 2 * |todo|
    case TeeGone(_, todo) => 9 + 2 * |todo|
    case Picking => 8
    case Provisioning(_, phase, _) => if phase.Entry? then 7 else if phase.CpuEntry? then 6 else 5
    case Rechecking(_, _) => 4
    case Sending(_, _, _) => 3
    case Marking(_, _, _) => 2
  }

  /** The label is a good step to a state closer to the end of the tick. */
  ghost predicate Works(cfg: Config, s: State, l: Label) {
    var s' := Apply(cfg, s, l);
    && GoodStep(cfg, s, l)
    && (s'.pc.Idle? || GoesWell(cfg, s'))
    && StepsLeft(s'.pc) < StepsLeft(s.pc)
  }

  lemma GoodLabelWorks(cfg: Config, s: State)
    requires Structure(cfg, s) && OnTrack(s) && Configured(cfg) && GoesWell(cfg, s)
    ensures Works(cfg, s, GoodLabel(cfg, s))
  {
    if s.pc.Provisioning? {
      ProvisioningWorks(cfg, s);
    } else if s.pc.Rechecking? || s.pc.Sending? || s.pc.Marking? {
      DispatchWorks(cfg, s);
    } else {
      FinalizingWorks(cfg, s);
    }
  }

  lemma ProvisioningWorks(cfg: Config, s: State)
    requires s.pc.Provisioning? && Configured(cfg) && GoesWell(cfg, s)
    ensures Works(cfg, s, GoodLabel(cfg, s))
  {
  }

  lemma DispatchWorks(cfg: Config, s: State)
    requires Structure(cfg, s) && GoesWell(cfg, s) && (s.pc.Rechecking? || s.pc.Sending? || s.pc.Marking?)
    ensures Works(cfg, s, GoodLabel(cfg, s))
  {
    if s.pc.Rechecking? {
      RecheckWorks(cfg, s);
    }
  }

  lemma RecheckWorks(cfg: Config, s: State)
    requires Structure(cfg, s) && GoesWell(cfg, s) && s.pc.Rechecking?
    ensures Works(cfg, s, Recheck)
  {
    RecheckKeepsStructure(cfg, s);
  }

  lemma FinalizingWorks(cfg: Config, s: State)
    requires Structure(cfg, s) && OnTrack(s) && GoesWell(cfg, s)
    requires s.pc.Cleaning? || s.pc.Cleaned? || s.pc.Finalizing? || s.pc.TeeGone? || s.pc.Picking?
    ensures Works(cfg, s, GoodLabel(cfg, s))
  {
    if s.pc.Cleaned? {
      ListingFinalizes(cfg, s);
    }
  }

  lemma ListingFinalizes(cfg: Config, s: State)
    requires Structure(cfg, s) && s.pc.Cleaned? && GoesWell(cfg, s)
    ensures
      var s' := Apply(cfg, s, GoodLabel(cfg, s));
      s'.pc.Finalizing? && |s'.pc.todo| <= 1 && GoesWell(cfg, s')
  {
    var m, c := s.log.marked, s.log.completed;
    var order := m[|c|..];
    assert |order| == 1 ==> order[0] == m[|c|];
    assert ListsDispatched(s, order);
  }

  lemma {:induction false} GoodRestExists(cfg: Config, s: State) returns (steps: seq<Label>)
    requires Structure(cfg, s) && OnTrack(s) && Configured(cfg) && (s.pc.Idle? || GoesWell(cfg, s))
    ensures GoodRest(cfg, s, steps)
    decreases StepsLeft(s.pc)
  {
    if s.pc.Idle? {
      steps := [];
    } else {
      var l := GoodLabel(cfg, s);
      GoodLabelWorks(cfg, s);
      GoodStepAdvances(cfg, s, l);
      StructureStep(cfg, s, l);
      var rest := GoodRestExists(cfg, Apply(cfg, s, l));
      steps := [l] + rest;
      assert steps[1..] == rest;
    }
  }

  /** With both targets configured every state between ticks has a good tick. */
  lemma GoodTickExists(cfg: Config, s: State) returns (steps: seq<Label>)
    requires Structure(cfg, s) && s.pc.Idle? && Configured(cfg)
    ensures GoodTick(cfg, s, steps)
  {
    var waited := WaitForGrace(cfg, s);
    var s1 := Apply(cfg, s, waited);
    StructureStep(cfg, s, waited);
    var s2 := Apply(cfg, s1, BeginCleanup);
    StructureStep(cfg, s1, BeginCleanup);
    var rest := GoodRestExists(cfg, s2);
    steps := [waited, BeginCleanup] + rest;
    WaitThenTick(cfg, s, waited, rest);
  }

  lemma WaitThenTick(cfg: Config, s: State, waited: Label, rest: seq<Label>)
    requires s.pc.Idle? && waited.Advance? && GoodRest(cfg, Apply(cfg, Apply(cfg, s, waited), BeginCleanup), rest)
    ensures GoodTick(cfg, s, [waited, BeginCleanup] + rest)
  {
    var (s1, steps) := (Apply(cfg, s, waited), [waited, BeginCleanup] + rest);
    assert steps[1..] == [BeginCleanup] + rest && steps[1..][1..] == rest;
    assert s1.pc.Idle?;
    assert GoodTick(cfg, s1, steps[1..]);
  }

  lemma WaitForGrace(cfg: Config, s: State) returns (l: Label)
    requires Structure(cfg, s) && s.pc.Idle?
    ensures l.Advance?
    ensures GoesWell(cfg, Apply(cfg, Apply(cfg, s, l), BeginCleanup))
  {
    var m, c := s.log.marked, s.log.completed;
    if |m| > |c| {
      var d := (s.dirs[m[|c|]].record.dispatchedAt + cfg.grace) as real - s.clock;
      l := Advance(if d < 0.0 then 0.0 else d);
    } else {
      l := Advance(0.0);
    }
  }
}
