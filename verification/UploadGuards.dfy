/** What the protocol keeps when uploads are not atomic, and under which conditions on its callers. Each
    condition is one that the code could test before the step: that a save finds the record it read
    still pending, that no other request works on the job, that no other queue update is under way. */
module UploadGuards {
  import opened BufferHistory
  import BufferModel
  import opened UploadRaces

  /** Every step of a run meets p in the state it is taken in. */
  ghost predicate Always(p: (State, Label) -> bool, steps: seq<Label>) {
    steps != [] ==> Always(p, steps[..|steps| - 1]) && p(Exec(steps[..|steps| - 1]), steps[|steps| - 1])
  }

  lemma {:induction false} AlwaysBoth(
    p: (State, Label) -> bool, q: (State, Label) -> bool, both: (State, Label) -> bool, steps: seq<Label>)
    requires forall s, l :: both(s, l) <==> p(s, l) && q(s, l)
    ensures Always(both, steps) <==> Always(p, steps) && Always(q, steps)
  {
    if steps != [] {
      AlwaysBoth(p, q, both, steps[..|steps| - 1]);
    }
  }

  // ---------------------------------------------------------------- conditions

  predicate Moves(s: State, l: Label) {
    l.ThreadStep? && l.t in s.threads
  }

  /** A create finds no record, and an upload the incarnation it read, still pending, or already queued
      where it would queue it too. */
  predicate SaveKeeps(s: State, l: Label) {
    Moves(s, l) ==>
      match s.threads[l.t]
      case Creating(id, _) => id !in s.records
      case Saving(id, record) =>
        && id in s.records && s.records[id].uid == record.uid
        && (s.records[id].status.PendingUpload? || (s.records[id].status.Queued? && record.status.Queued?))
      case _ => true
  }

  /** A save finds the incarnation it read still pending, a create no record. */
  predicate SaveFresh(s: State, l: Label) {
    Moves(s, l) ==>
      match s.threads[l.t]
      case Creating(id, _) => id !in s.records
      case Saving(id, record) =>
        id in s.records && s.records[id].uid == record.uid && s.records[id].status.PendingUpload?
      case _ => true
  }

  /** A request for a job starts only while no other request works on that job's record. */
  predicate Serial(s: State, l: Label) {
    l.StartCreate? || l.StartUpload? ==> forall t <- s.threads :: HasRecord(s.threads[t]) ==> s.threads[t].id != l.id
  }

  /** No restart between a send and its mark. */
  predicate RestartSafe(s: State, l: Label) {
    l.Restart? ==> !s.scheduler.Loading? && !s.scheduler.Marking?
  }

  predicate Enqueuing(thread: Thread) {
    thread.ReadingQueue? || thread.WritingQueue?
  }

  /** No restart between a save and its append to the queue, or between a mark and its removal. */
  predicate RestartQuiet(s: State, l: Label) {
    l.Restart? ==>
      && !s.scheduler.ReadingForRemoval? && !s.scheduler.Removing?
      && forall t <- s.threads :: !Enqueuing(s.threads[t])
  }

  /** A write of the queue changes what is on disk only by the job appended or removed. */
  predicate CopyCurrent(s: State, l: Label) {
    && (Moves(s, l) && s.threads[l.t].WritingQueue? ==> s.threads[l.t].ids == s.queue)
    && (l.SchedulerStep? && s.scheduler.Removing? ==>
          [s.scheduler.id] + BufferModel.Without(s.scheduler.ids, s.scheduler.id) == s.queue)
  }

  /** Someone has read the queue and not yet written it back. */
  predicate QueueHeld(s: State) {
    s.scheduler.Removing? || exists t <- s.threads :: s.threads[t].WritingQueue?
  }

  /** The queue is read for an update only while nobody else is updating it. */
  predicate Exclusive(s: State, l: Label) {
    && (Moves(s, l) && s.threads[l.t].ReadingQueue? ==> !QueueHeld(s))
    && (l.SchedulerStep? && s.scheduler.ReadingForRemoval? ==> !QueueHeld(s))
  }

  // ---------------------------------------------------------------- incarnations

  predicate IsCreate(thread: Thread) {
    thread.Making? || thread.Creating?
  }

  ghost predicate UidsKept(s: State) {
    && (forall a, b :: a in s.records && b in s.records && s.records[a].uid == s.records[b].uid ==> a == b)
    && (forall id <- s.records :: s.records[id].uid in s.log.births)
    && (forall u <- s.log.births :: u < s.nextUid)
  }

  /** A creating request's incarnation was never written, an upload's was. */
  ghost predicate CopyKept(s: State, thread: Thread) {
    HasRecord(thread) ==>
      && thread.record.uid < s.nextUid
      && (thread.record.status.PendingUpload? || (thread.Saving? && thread.record.status.Queued?))
      && (IsCreate(thread) <==> thread.record.uid !in s.log.births)
  }

  ghost predicate CopiesKept(s: State) {
    && (forall t <- s.threads :: CopyKept(s, s.threads[t]))
    && (forall t, u ::
          t in s.threads && u in s.threads && t != u && IsCreate(s.threads[t]) && IsCreate(s.threads[u]) ==>
          s.threads[t].record.uid != s.threads[u].record.uid)
  }

  ghost predicate IsStill(s: State, id: JobId, uid: nat, status: Status) {
    HasStatus(s, id, status) && s.records[id].uid == uid
  }

  /** The scheduler's copies are of the incarnation on disk, in the status they were read in. */
  ghost predicate SchedulerHolds(s: State) {
    match s.scheduler
    case Deleting(id) => HasStatus(s, id, BufferModel.Complete)
    case Completing(id, record) => record.status.Dispatched? && IsStill(s, id, record.uid, BufferModel.Dispatched)
    case Provisioning(id, record) => record.status.Queued? && IsStill(s, id, record.uid, BufferModel.Queued)
    case ReopeningQueue(id, record) => IsStill(s, id, record.uid, BufferModel.Queued)
    case Rechecking(id, record, _) => IsStill(s, id, record.uid, BufferModel.Queued)
    case ReadingModel(id, uid) => IsStill(s, id, uid, BufferModel.Queued)
    case ReadingWeights(id, uid, _) => IsStill(s, id, uid, BufferModel.Queued)
    case ReadingPreprocessing(id, uid, _, _) => IsStill(s, id, uid, BufferModel.Queued)
    case Sending(id, delivery) => IsStill(s, id, delivery.uid, BufferModel.Queued)
    case Loading(id) => HasStatus(s, id, BufferModel.Queued)
    case Marking(id, record) => IsStill(s, id, record.uid, BufferModel.Queued)
    case ReadingForRemoval(id) => HasStatus(s, id, BufferModel.Dispatched)
    case Removing(id, _) => HasStatus(s, id, BufferModel.Dispatched)
    case _ => true
  }

  ghost predicate Tracked(s: State) {
    UidsKept(s) && CopiesKept(s) && SchedulerHolds(s)
  }

  lemma StartTracked(s: State, l: Label)
    requires Tracked(s) && (l.StartCreate? || l.StartUpload?)
    ensures Tracked(Apply(s, l))
  {
  }

  // What one step of a thread or of the scheduler does to the files, in brief.

  /** A thread's next turn is the same request's, further on. */
  ghost predicate Continues(thread: Thread, thread': Thread) {
    HasRecord(thread') ==>
      && HasRecord(thread) && thread'.id == thread.id && thread'.record.uid == thread.record.uid
      && (IsCreate(thread') <==> IsCreate(thread))
      && (thread'.record == thread.record || (thread'.Saving? && thread'.record.status.Queued?))
      && (thread.Saving? ==> thread'.Saving?)
  }

  /** A turn writes at most the record it holds, and a create then ends. */
  ghost predicate Turn(s: State, s': State, t: nat) {
    t in s.threads && TurnThreads(s, s', t) && TurnRecords(s, s', t)
  }

  ghost predicate TurnThreads(s: State, s': State, t: nat)
    requires t in s.threads
  {
    && s'.scheduler == s.scheduler && s'.nextUid == s.nextUid
    && (s'.threads == s.threads - {t}
        || (t in s'.threads && s'.threads == s.threads[t := s'.threads[t]] && Continues(s.threads[t], s'.threads[t])
            && !s.threads[t].Creating?))
    && (s.threads[t].Saving? && t in s'.threads ==> !HasRecord(s'.threads[t]))
  }

  ghost predicate TurnRecords(s: State, s': State, t: nat)
    requires t in s.threads
  {
    var thread := s.threads[t];
    && s.dirs.Keys <= s'.dirs.Keys
    && (if thread.Creating? || thread.Saving? then
          s'.records == s.records[thread.id := thread.record] && thread.id in s'.dirs
        else s'.records == s.records)
    && s'.log.births == s.log.births + (if thread.Creating? then {thread.record.uid} else {})
  }

  lemma ThreadTurns(s: State, l: Label)
    requires Moves(s, l)
    ensures Turn(s, Apply(s, l), l.t)
  {
    ThreadTurnsThreads(s, l);
    ThreadTurnsRecords(s, l);
  }

  lemma ThreadTurnsThreads(s: State, l: Label)
    requires Moves(s, l)
    ensures TurnThreads(s, Apply(s, l), l.t)
  {
  }

  lemma ThreadTurnsRecords(s: State, l: Label)
    requires Moves(s, l)
    ensures TurnRecords(s, Apply(s, l), l.t)
  {
  }

  /** The scheduler deletes a complete record or takes one past pending_upload a step on. */
  ghost predicate Advances(s: State, s': State) {
    && s'.threads == s.threads && s'.nextUid == s.nextUid && s'.log.births == s.log.births
    && s'.log.enqueued == s.log.enqueued
    && (|| (s'.records == s.records && s'.dirs == s.dirs)
        || (s.scheduler.Deleting? && HasStatus(s, s.scheduler.id, BufferModel.Complete)
            && s'.records == s.records - {s.scheduler.id} && s'.dirs == s.dirs - {s.scheduler.id})
        || Rewrites(s, s'))
  }

  ghost predicate Rewrites(s: State, s': State) {
    && (s.scheduler.Completing? || s.scheduler.Provisioning? || s.scheduler.Marking?)
    && var id := s.scheduler.id;
    && id in s.records && id in s'.records && !s.records[id].status.PendingUpload?
    && s'.records == s.records[id := s'.records[id]]
    && s'.records[id].uid == s.records[id].uid
    && StatusStep(s.records[id].status, s'.records[id].status)
    && s'.dirs == s.dirs[id := FilesIn(s, id)]
  }

  lemma ScheduleAdvances(s: State, ok: bool)
    requires SchedulerHolds(s)
    ensures Advances(s, Schedule(s, s.scheduler, ok))
  {
    if !Writes(s.scheduler, ok) {
      ReadChangesNothing(s, ok);
    }
  }

  lemma ThreadTracked(s: State, l: Label)
    requires Tracked(s) && SaveKeeps(s, l) && Moves(s, l)
    ensures Tracked(Apply(s, l))
  {
    ThreadTurns(s, l);
    TurnKeepsUids(s, l, Apply(s, l));
    TurnKeepsCopies(s, Apply(s, l), l.t);
    TurnKeepsHeld(s, l, Apply(s, l));
  }

  lemma TurnKeepsUids(s: State, l: Label, s': State)
    requires UidsKept(s) && CopiesKept(s) && SaveKeeps(s, l) && Moves(s, l) && Turn(s, s', l.t)
    ensures UidsKept(s')
  {
    assert CopyKept(s, s.threads[l.t]);
  }

  lemma TurnKeepsCopies(s: State, s': State, t: nat)
    requires CopiesKept(s) && Turn(s, s', t)
    ensures CopiesKept(s')
  {
    assert CopyKept(s, s.threads[t]);
    forall u <- s'.threads ensures CopyKept(s', s'.threads[u]) {
      assert u in s.threads && CopyKept(s, s.threads[u]);
    }
  }

  lemma TurnKeepsHeld(s: State, l: Label, s': State)
    requires SchedulerHolds(s) && SaveKeeps(s, l) && Moves(s, l) && Turn(s, s', l.t)
    ensures SchedulerHolds(s')
  {
  }

  lemma ScheduleTracked(s: State, ok: bool)
    requires Tracked(s)
    ensures Tracked(Schedule(s, s.scheduler, ok))
  {
    ScheduleAdvances(s, ok);
    AdvanceKeepsUids(s, Schedule(s, s.scheduler, ok));
    ScheduleKeepsHeld(s, ok);
  }

  lemma AdvanceKeepsUids(s: State, s': State)
    requires UidsKept(s) && CopiesKept(s) && Advances(s, s')
    ensures UidsKept(s') && CopiesKept(s')
  {
    forall t <- s'.threads ensures CopyKept(s', s'.threads[t]) {
      assert CopyKept(s, s.threads[t]);
    }
  }

  lemma ScheduleKeepsHeld(s: State, ok: bool)
    requires SchedulerHolds(s)
    ensures SchedulerHolds(Schedule(s, s.scheduler, ok))
  {
  }

  lemma TrackedInStep(s: State, l: Label)
    requires Tracked(s) && SaveKeeps(s, l)
    ensures Tracked(Apply(s, l))
  {
    match l
    case StartCreate(_, _, _) => StartTracked(s, l);
    case StartUpload(_, _, _, _) => StartTracked(s, l);
    case ThreadStep(t, _) =>
      if t in s.threads {
        ThreadTracked(s, l);
      }
    case SchedulerStep(ok) => ScheduleTracked(s, ok);
    case _ =>
  }

  lemma {:induction false} TrackedAlways(steps: seq<Label>)
    requires Always(SaveKeeps, steps)
    ensures Tracked(Exec(steps))
  {
    if steps != [] {
      TrackedAlways(steps[..|steps| - 1]);
      TrackedInStep(Exec(steps[..|steps| - 1]), steps[|steps| - 1]);
    }
  }

  // ---------------------------------------------------------------- lifecycle

  /** Records of an incarnation move forward only and go only when complete; new ones are new
      incarnations, pending. */
  ghost predicate MovesForward(s: State, l: Label) {
    var s' := Apply(s, l);
    && (forall id <- s.records :: id in s'.records || s.records[id].status.Complete?)
    && (forall id <- s'.records ::
          if id in s.records then
            s'.records[id].uid == s.records[id].uid && StatusStep(s.records[id].status, s'.records[id].status)
          else s'.records[id].uid !in s.log.births && s'.records[id].status.PendingUpload?)
  }

  lemma ForwardIff(s: State, l: Label)
    requires Tracked(s)
    ensures MovesForward(s, l) <==> SaveKeeps(s, l)
  {
    if Moves(s, l) {
      ThreadForwardIff(s, l);
    } else if l.SchedulerStep? {
      ScheduleForward(s, l);
    }
  }

  lemma ThreadForwardIff(s: State, l: Label)
    requires Tracked(s) && Moves(s, l)
    ensures MovesForward(s, l) <==> SaveKeeps(s, l)
  {
    ThreadTurns(s, l);
    assert CopyKept(s, s.threads[l.t]);
    var s' := Apply(s, l);
    if s.threads[l.t].Creating? || s.threads[l.t].Saving? {
      assert s.threads[l.t].id in s'.records;
    }
  }

  lemma ScheduleForward(s: State, l: Label)
    requires Tracked(s) && l.SchedulerStep?
    ensures MovesForward(s, l)
  {
    ScheduleAdvances(s, l.ok);
    AdvanceForward(s, Apply(s, l), l);
  }

  lemma AdvanceForward(s: State, s': State, l: Label)
    requires Advances(s, s') && s' == Apply(s, l)
    ensures MovesForward(s, l)
  {
  }

  /** Over a whole run the lifecycle holds at every step exactly if every save finds the record it
      is about to overwrite still as it was read. */
  lemma {:induction false} LifecycleKeptIff(steps: seq<Label>)
    ensures Always(MovesForward, steps) <==> Always(SaveKeeps, steps)
  {
    if steps != [] {
      var init := steps[..|steps| - 1];
      LifecycleKeptIff(init);
      if Always(SaveKeeps, init) {
        TrackedAlways(init);
        ForwardIff(Exec(init), steps[|steps| - 1]);
      }
    }
  }

  // ---------------------------------------------------------------- sent once

  ghost predicate DistinctUids(sends: seq<Delivery>) {
    forall i, j :: 0 <= i < j < |sends| ==> sends[i].uid != sends[j].uid
  }

  /** What was sent is dispatched, complete or gone, or is about to be marked. */
  ghost predicate SentSettled(s: State, uid: nat) {
    && uid in s.log.births
    && forall id <- s.records :: s.records[id].uid == uid ==>
         || s.records[id].status.Dispatched? || s.records[id].status.Complete?
         || ((s.scheduler.Loading? || s.scheduler.Marking?) && s.scheduler.id == id)
  }

  ghost predicate SendsSettled(s: State) {
    && DistinctUids(s.log.sends)
    && forall d <- s.log.sends :: SentSettled(s, d.uid)
  }

  lemma SettledInStep(s: State, l: Label, uid: nat)
    requires Tracked(s) && SaveKeeps(s, l) && RestartSafe(s, l) && SentSettled(s, uid)
    ensures SentSettled(Apply(s, l), uid)
  {
    if l.SchedulerStep? {
      SettledInSchedule(s, l.ok, uid);
    } else if Moves(s, l) {
      SettledInThread(s, l, uid);
    }
  }

  lemma SettledInSchedule(s: State, ok: bool, uid: nat)
    requires Tracked(s) && SentSettled(s, uid)
    ensures SentSettled(Schedule(s, s.scheduler, ok), uid)
  {
    ScheduleAdvances(s, ok);
    SendIsMarked(s, ok);
  }

  /** From a send the scheduler goes on to load and mark the job. */
  lemma SendIsMarked(s: State, ok: bool)
    requires SchedulerHolds(s)
    ensures
      var s' := Schedule(s, s.scheduler, ok);
      && (s.scheduler.Loading? ==> s'.scheduler.Marking? && s'.scheduler.id == s.scheduler.id)
      && (s.scheduler.Marking? ==> HasStatus(s', s.scheduler.id, BufferModel.Dispatched))
  {
  }

  lemma SettledInThread(s: State, l: Label, uid: nat)
    requires Tracked(s) && SaveKeeps(s, l) && Moves(s, l) && SentSettled(s, uid)
    ensures SentSettled(Apply(s, l), uid)
  {
    ThreadTurns(s, l);
    assert CopyKept(s, s.threads[l.t]);
  }

  lemma SendsInStep(s: State, l: Label)
    ensures
      var s' := Apply(s, l);
      if l.SchedulerStep? && s.scheduler.Sending? && l.ok then
        s'.log.sends == s.log.sends + [s.scheduler.delivery] && s'.scheduler == Loading(s.scheduler.id)
        && s'.records == s.records && s'.log.births == s.log.births
      else s'.log.sends == s.log.sends
  {
  }

  lemma SendsSettledInStep(s: State, l: Label)
    requires Tracked(s) && SaveKeeps(s, l) && RestartSafe(s, l) && SendsSettled(s)
    ensures SendsSettled(Apply(s, l))
  {
    var s' := Apply(s, l);
    SendsInStep(s, l);
    forall d <- s.log.sends ensures SentSettled(s', d.uid) {
      SettledInStep(s, l, d.uid);
    }
    if s'.log.sends != s.log.sends {
      assert IsStill(s, s.scheduler.id, s.scheduler.delivery.uid, BufferModel.Queued);
    }
  }

  /** No incarnation is sent twice in a run whose saves find what they read, and which is not
      restarted between a send and its mark. */
  lemma {:induction false} SentOnce(steps: seq<Label>)
    requires Always(KeepsAndSafe, steps)
    ensures Tracked(Exec(steps)) && SendsSettled(Exec(steps)) && SendLogged(Exec(steps))
    ensures DistinctUids(Exec(steps).log.sends)
  {
    if steps != [] {
      var s, l := Exec(steps[..|steps| - 1]), steps[|steps| - 1];
      SentOnce(steps[..|steps| - 1]);
      TrackedInStep(s, l);
      SendsSettledInStep(s, l);
      SendLoggedInStep(s, l);
    }
  }

  predicate KeepsAndSafe(s: State, l: Label) {
    SaveKeeps(s, l) && RestartSafe(s, l)
  }

  ghost predicate StaysSettled(s: State, l: Label) {
    SendsSettled(Apply(s, l))
  }

  ghost predicate ForwardAndSettled(s: State, l: Label) {
    MovesForward(s, l) && StaysSettled(s, l)
  }

  /** A job about to be marked has been sent. */
  ghost predicate SendLogged(s: State) {
    s.scheduler.Loading? || s.scheduler.Marking? ==>
      exists d <- s.log.sends :: IsStill(s, s.scheduler.id, d.uid, BufferModel.Queued)
  }

  lemma SendLoggedInStep(s: State, l: Label)
    requires Tracked(s) && SaveKeeps(s, l) && SendLogged(s)
    ensures SendLogged(Apply(s, l))
  {
    var pc' := Apply(s, l).scheduler;
    TrackedInStep(s, l);
    MarkingFollows(s, l);
    if s.scheduler.Sending? && l.SchedulerStep? && l.ok {
      SendIsLogged(s, l);
    } else if pc'.Loading? || pc'.Marking? {
      SendsInStep(s, l);
      UidStays(s, l, s.scheduler.id);
      SendStaysLogged(s, Apply(s, l), s.scheduler.id);
    }
  }

  lemma SendIsLogged(s: State, l: Label)
    requires SchedulerHolds(s) && s.scheduler.Sending? && l.SchedulerStep? && l.ok
    ensures SendLogged(Apply(s, l))
  {
    var (s', d) := (Apply(s, l), s.scheduler.delivery);
    SendsInStep(s, l);
    assert s'.log.sends[|s.log.sends|] == d;
    assert d in s'.log.sends && IsStill(s', s.scheduler.id, d.uid, BufferModel.Queued);
  }

  lemma SendStaysLogged(s: State, s': State, id: JobId)
    requires SendLogged(s) && (s.scheduler.Loading? || s.scheduler.Marking?) && s.scheduler.id == id
    requires (s'.scheduler.Loading? || s'.scheduler.Marking?) && s'.scheduler.id == id
    requires s'.log.sends == s.log.sends && HasStatus(s', id, BufferModel.Queued)
    requires id in s.records && s'.records[id].uid == s.records[id].uid
    ensures SendLogged(s')
  {
    var d :| d in s.log.sends && IsStill(s, id, d.uid, BufferModel.Queued);
    assert d in s'.log.sends && IsStill(s', id, d.uid, BufferModel.Queued);
  }

  lemma UidStays(s: State, l: Label, id: JobId)
    requires Tracked(s) && SaveKeeps(s, l) && id in s.records && id in Apply(s, l).records
    ensures Apply(s, l).records[id].uid == s.records[id].uid
  {
    ForwardIff(s, l);
  }

  /** Loading follows a send, and marking loading, of the same job. */
  lemma MarkingFollows(s: State, l: Label)
    requires SchedulerHolds(s)
    ensures
      var pc' := Apply(s, l).scheduler;
      && (pc'.Loading? ==> pc' == s.scheduler || (l.SchedulerStep? && l.ok && s.scheduler.Sending?))
      && (pc'.Marking? ==> pc' == s.scheduler || (s.scheduler.Loading? && pc'.id == s.scheduler.id))
  {
  }

  lemma SettledIff(s: State, l: Label)
    requires Tracked(s) && SendsSettled(s) && SendLogged(s)
    ensures ForwardAndSettled(s, l) <==> KeepsAndSafe(s, l)
  {
    ForwardIff(s, l);
    if KeepsAndSafe(s, l) {
      SendsSettledInStep(s, l);
    } else if !RestartSafe(s, l) {
      RestartUnsettles(s);
    }
  }

  /** A restart between a send and its mark leaves a queued job that was sent. */
  lemma RestartUnsettles(s: State)
    requires SendLogged(s) && (s.scheduler.Loading? || s.scheduler.Marking?)
    ensures !StaysSettled(s, Restart)
  {
    var s' := Apply(s, Restart);
    var d :| d in s.log.sends && IsStill(s, s.scheduler.id, d.uid, BufferModel.Queued);
    assert d in s'.log.sends && !SentSettled(s', d.uid);
  }

  /** Over a whole run the lifecycle holds, and whatever was sent was sent once and is dispatched,
      complete, gone or about to be marked, exactly if every save finds what it read and no restart
      comes between a send and its mark. */
  lemma {:induction false} SentOnceIff(steps: seq<Label>)
    ensures Always(ForwardAndSettled, steps) <==> Always(KeepsAndSafe, steps)
  {
    if steps != [] {
      var init := steps[..|steps| - 1];
      SentOnceIff(init);
      if Always(KeepsAndSafe, init) {
        SentOnce(init);
        SettledIff(Exec(init), steps[|steps| - 1]);
      }
    }
  }

  // ---------------------------------------------------------------- serial requests

  /** A thread with a record works on a job alone, and on what is on disk. */
  ghost predicate WorksAlone(s: State, t: nat)
    requires t in s.threads
  {
    var thread := s.threads[t];
    HasRecord(thread) ==>
      && (forall u <- s.threads :: u != t && HasRecord(s.threads[u]) ==> s.threads[u].id != thread.id)
      && (if IsCreate(thread) then thread.id !in s.records
          else IsStill(s, thread.id, thread.record.uid, BufferModel.PendingUpload))
  }

  ghost predicate AllAlone(s: State) {
    forall t <- s.threads :: WorksAlone(s, t)
  }

  lemma AloneSavesFresh(s: State, l: Label)
    requires AllAlone(s)
    ensures SaveFresh(s, l) && SaveKeeps(s, l)
  {
    if Moves(s, l) {
      assert WorksAlone(s, l.t);
    }
  }

  lemma AloneInStart(s: State, l: Label)
    requires Tracked(s) && AllAlone(s) && Serial(s, l) && (l.StartCreate? || l.StartUpload?)
    requires s.records.Keys <= s.dirs.Keys
    ensures AllAlone(Apply(s, l))
  {
  }

  lemma AloneInTurn(s: State, s': State, t: nat)
    requires AllAlone(s) && Turn(s, s', t)
    ensures AllAlone(s')
  {
    assert WorksAlone(s, t);
    forall u <- s'.threads ensures WorksAlone(s', u) {
      assert u in s.threads && WorksAlone(s, u);
    }
  }

  lemma AloneInAdvance(s: State, s': State)
    requires AllAlone(s) && Advances(s, s')
    ensures AllAlone(s')
  {
    forall t <- s'.threads ensures WorksAlone(s', t) {
      assert WorksAlone(s, t);
    }
  }

  lemma OtherStepsTouchNothing(s: State, l: Label)
    requires !l.ThreadStep? && !l.SchedulerStep?
    ensures
      var s' := Apply(s, l);
      && s'.records == s.records && s'.dirs == s.dirs && s'.queue == s.queue && s'.log == s.log
      && (!l.StartCreate? && !l.StartUpload? ==> s'.threads == s.threads || (l.Restart? && s'.threads == map[]))
  {
  }

  ghost predicate SerialKept(s: State) {
    Tracked(s) && AllAlone(s) && s.records.Keys <= s.dirs.Keys
  }

  lemma SerialKeptInStep(s: State, l: Label)
    requires SerialKept(s) && Serial(s, l)
    ensures SerialKept(Apply(s, l))
  {
    AloneSavesFresh(s, l);
    TrackedInStep(s, l);
    if l.StartCreate? || l.StartUpload? {
      OtherStepsTouchNothing(s, l);
      AloneInStart(s, l);
    } else if Moves(s, l) {
      ThreadTurns(s, l);
      AloneInTurn(s, Apply(s, l), l.t);
    } else if l.SchedulerStep? {
      ScheduleAdvances(s, l.ok);
      AloneInAdvance(s, Apply(s, l));
    } else {
      AloneInOther(s, l);
    }
  }

  lemma AloneInOther(s: State, l: Label)
    requires AllAlone(s) && s.records.Keys <= s.dirs.Keys
    requires !l.StartCreate? && !l.StartUpload? && !l.SchedulerStep? && !Moves(s, l)
    ensures AllAlone(Apply(s, l)) && Apply(s, l).records.Keys <= Apply(s, l).dirs.Keys
  {
    var s' := Apply(s, l);
    if !l.ThreadStep? {
      OtherStepsTouchNothing(s, l);
    }
    forall t <- s'.threads ensures WorksAlone(s', t) {
      assert WorksAlone(s, t);
    }
  }

  /** With serial requests every save finds what it read. */
  lemma {:induction false} SerialSavesKeep(steps: seq<Label>)
    requires Always(Serial, steps)
    ensures SerialKept(Exec(steps))
    ensures Always(SaveFresh, steps) && Always(SaveKeeps, steps)
  {
    if steps != [] {
      SerialSavesKeep(steps[..|steps| - 1]);
      AloneSavesFresh(Exec(steps[..|steps| - 1]), steps[|steps| - 1]);
      SerialKeptInStep(Exec(steps[..|steps| - 1]), steps[|steps| - 1]);
    }
  }

  /** So with serial requests the lifecycle holds at every step, restarts included, and what was sent was
      sent once and stays settled exactly if no restart comes between a send and its mark. */
  lemma SerialRequestsSentOnce(steps: seq<Label>)
    requires Always(Serial, steps)
    ensures Always(MovesForward, steps)
    ensures Always(StaysSettled, steps) <==> Always(RestartSafe, steps)
  {
    SerialSavesKeep(steps);
    LifecycleKeptIff(steps);
    SentOnceIff(steps);
    AlwaysBoth(MovesForward, StaysSettled, ForwardAndSettled, steps);
    AlwaysBoth(SaveKeeps, RestartSafe, KeepsAndSafe, steps);
  }
}
