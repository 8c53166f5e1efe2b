/** The queue when uploads are not atomic. */
module UploadQueue {
  import BufferInvariant
  import BufferModel
  import opened UploadGuards
  import opened UploadRaces

  /** First in, first out: what was enqueued is what was removed, then the queue. */
  ghost predicate Conserved(s: State) {
    s.log.enqueued == s.log.removed + s.queue
  }

  ghost predicate Conserves(s: State, l: Label) {
    Conserved(Apply(s, l))
  }

  predicate BeingRemoved(s: State, id: JobId) {
    (s.scheduler.ReadingForRemoval? || s.scheduler.Removing?) && s.scheduler.id == id
  }

  /** A thread has queued the job on disk and will append it to the queue. */
  ghost predicate ToBeEnqueued(s: State, id: JobId) {
    exists t <- s.threads :: Enqueuing(s.threads[t]) && s.threads[t].id == id
  }

  ghost predicate EntriesKept(s: State) {
    && BufferModel.NoDuplicates(s.queue)
    && (forall id <- s.queue ::
          HasStatus(s, id, BufferModel.Queued) || (BeingRemoved(s, id) && HasStatus(s, id, BufferModel.Dispatched)))
    && (forall id <- s.records :: s.records[id].status.Queued? ==> id in s.queue || ToBeEnqueued(s, id))
  }

  /** Each job to be enqueued is queued on disk, not in the queue, and one thread's. */
  ghost predicate EnqueuersKept(s: State) {
    && (forall t <- s.threads :: Enqueuing(s.threads[t]) ==>
          HasStatus(s, s.threads[t].id, BufferModel.Queued) && s.threads[t].id !in s.queue)
    && (forall t, u ::
          t in s.threads && u in s.threads && t != u && Enqueuing(s.threads[t]) && Enqueuing(s.threads[u]) ==>
          s.threads[t].id != s.threads[u].id)
  }

  ghost predicate AtHead(s: State, id: JobId) {
    s.queue != [] && s.queue[0] == id
  }

  /** The scheduler works on the head of the queue. */
  ghost predicate HeadKept(s: State) {
    match s.scheduler
    case Idle => true
    case Deleting(_) => true
    case Completing(_, _) => true
    case Scanning(_) => true
    case OpeningQueue => true
    case Picking(ids) => ids <= s.queue
    case Rechecking(id, _, ids) => AtHead(s, id) && ids != [] && ids <= s.queue
    case _ => AtHead(s, s.scheduler.id)
  }

  ghost predicate QueueKept(s: State) {
    EntriesKept(s) && EnqueuersKept(s) && HeadKept(s) && Conserved(s)
  }

  // ---------------------------------------------------------------- one step

  /** A turn appends to the copy of the queue it holds, and a thread that has queued its job goes on to
      append it. */
  ghost predicate QueueTurn(s: State, s': State, t: nat) {
    && t in s.threads
    && var thread := s.threads[t];
    && (if thread.WritingQueue? then s'.queue == thread.ids + [thread.id] && s'.threads == s.threads - {t}
        else s'.queue == s.queue)
    && (thread.ReadingQueue? || (thread.Saving? && thread.record.status.Queued?) ==>
          t in s'.threads && Enqueuing(s'.threads[t]) && s'.threads[t].id == thread.id)
    && (t in s'.threads && Enqueuing(s'.threads[t]) ==>
          thread.ReadingQueue? || (thread.Saving? && thread.record.status.Queued?))
  }

  lemma TurnQueue(s: State, l: Label)
    requires Moves(s, l)
    ensures QueueTurn(s, Apply(s, l), l.t)
  {
  }

  lemma TurnLogs(s: State, l: Label)
    requires Moves(s, l)
    ensures
      var (s', thread) := (Apply(s, l), s.threads[l.t]);
      && s'.log.removed == s.log.removed
      && s'.log.enqueued == s.log.enqueued + (if thread.WritingQueue? then [thread.id] else [])
  {
  }

  lemma TurnKeepsEnqueuers(s: State, l: Label)
    requires Tracked(s) && QueueKept(s) && Moves(s, l) && SaveFresh(s, l) && CopyCurrent(s, l)
    ensures EnqueuersKept(Apply(s, l))
  {
    ThreadTurns(s, l);
    TurnQueue(s, l);
    assert CopyKept(s, s.threads[l.t]);
    EnqueuersAfterTurn(s, l, Apply(s, l));
  }

  lemma EnqueuersAfterTurn(s: State, l: Label, s': State)
    requires EntriesKept(s) && EnqueuersKept(s) && Moves(s, l) && CopyCurrent(s, l)
    requires SaveFresh(s, l) && CopyKept(s, s.threads[l.t])
    requires Turn(s, s', l.t) && QueueTurn(s, s', l.t)
    ensures EnqueuersKept(s')
  {
  }

  lemma TurnKeepsEntries(s: State, l: Label)
    requires Tracked(s) && QueueKept(s) && Moves(s, l) && SaveFresh(s, l) && CopyCurrent(s, l)
    ensures EntriesKept(Apply(s, l))
  {
    ThreadTurns(s, l);
    TurnQueue(s, l);
    assert CopyKept(s, s.threads[l.t]);
    TurnKeepsListed(s, l, Apply(s, l));
    TurnKeepsAwaited(s, l, Apply(s, l));
  }

  lemma TurnKeepsListed(s: State, l: Label, s': State)
    requires EntriesKept(s) && EnqueuersKept(s) && Moves(s, l) && SaveFresh(s, l) && CopyCurrent(s, l)
    requires Turn(s, s', l.t) && QueueTurn(s, s', l.t)
    ensures BufferModel.NoDuplicates(s'.queue)
    ensures forall id <- s'.queue ::
      HasStatus(s', id, BufferModel.Queued) || (BeingRemoved(s', id) && HasStatus(s', id, BufferModel.Dispatched))
  {
  }

  lemma TurnKeepsAwaited(s: State, l: Label, s': State)
    requires EntriesKept(s) && Moves(s, l) && SaveFresh(s, l) && CopyKept(s, s.threads[l.t]) && CopyCurrent(s, l)
    requires Turn(s, s', l.t) && QueueTurn(s, s', l.t)
    ensures forall id <- s'.records :: s'.records[id].status.Queued? ==> id in s'.queue || ToBeEnqueued(s', id)
  {
    forall id <- s'.records | s'.records[id].status.Queued? && id !in s'.queue ensures ToBeEnqueued(s', id) {
      if HasStatus(s, id, BufferModel.Queued) {
        assert ToBeEnqueued(s, id);
        var t :| t in s.threads && Enqueuing(s.threads[t]) && s.threads[t].id == id;
        assert t in s'.threads && Enqueuing(s'.threads[t]) && s'.threads[t].id == id;
      } else {
        assert l.t in s'.threads && Enqueuing(s'.threads[l.t]) && s'.threads[l.t].id == id;
      }
    }
  }

  lemma TurnKeepsHead(s: State, l: Label)
    requires HeadKept(s) && Moves(s, l) && CopyCurrent(s, l)
    ensures HeadKept(Apply(s, l))
  {
    ThreadTurns(s, l);
    TurnQueue(s, l);
  }

  lemma TurnKeepsQueue(s: State, l: Label)
    requires Tracked(s) && QueueKept(s) && Moves(s, l) && SaveFresh(s, l) && CopyCurrent(s, l)
    ensures QueueKept(Apply(s, l))
  {
    TurnKeepsEnqueuers(s, l);
    TurnKeepsEntries(s, l);
    TurnKeepsHead(s, l);
    TurnQueue(s, l);
    TurnLogs(s, l);
    var thread := s.threads[l.t];
    assert thread.WritingQueue? ==> s.log.removed + (s.queue + [thread.id]) == (s.log.removed + s.queue) + [thread.id];
  }

  /** What the scheduler does to the queue: it removes the head, from a current copy. */
  lemma ScheduleQueue(s: State, ok: bool)
    requires QueueKept(s) && CopyCurrent(s, SchedulerStep(ok))
    ensures
      var s' := Schedule(s, s.scheduler, ok);
      if s.scheduler.Removing? then
        && s'.queue == s.queue[1..] && s'.scheduler.Idle? && s'.log.removed == s.log.removed + [s.queue[0]]
        && s'.records == s.records
      else s'.queue == s.queue && s'.log.removed == s.log.removed
  {
    if s.scheduler.Removing? {
      var rest := BufferModel.Without(s.scheduler.ids, s.scheduler.id);
      assert rest == ([s.scheduler.id] + rest)[1..];
    }
  }

  lemma ScheduleKeepsEntries(s: State, ok: bool)
    requires Tracked(s) && QueueKept(s) && CopyCurrent(s, SchedulerStep(ok))
    ensures EntriesKept(Schedule(s, s.scheduler, ok)) && EnqueuersKept(Schedule(s, s.scheduler, ok))
  {
    var s' := Schedule(s, s.scheduler, ok);
    ScheduleQueue(s, ok);
    ScheduleAdvances(s, ok);
    assert s'.threads == s.threads;
    if s.scheduler.Marking? {
      MarkedKeepsEntries(s, s');
    } else if s.scheduler.Removing? {
      RemovedKeepsEntries(s, s');
    } else {
      RemovalPhases(s, ok);
      RestKeepsEntries(s, s');
    }
  }

  lemma MarkedKeepsEntries(s: State, s': State)
    requires EntriesKept(s) && EnqueuersKept(s) && HeadKept(s) && s.scheduler.Marking? && s.scheduler.id in s.records
    requires s'.queue == s.queue && s'.threads == s.threads && s'.scheduler == ReadingForRemoval(s.scheduler.id)
    requires HasStatus(s', s.scheduler.id, BufferModel.Dispatched)
    requires s'.records == s.records[s.scheduler.id := s'.records[s.scheduler.id]]
    ensures EntriesKept(s') && EnqueuersKept(s')
  {
    SameThreadsAwait(s, s');
  }

  lemma RemovedKeepsEntries(s: State, s': State)
    requires EntriesKept(s) && EnqueuersKept(s) && HeadKept(s) && s.scheduler.Removing?
    requires HasStatus(s, s.scheduler.id, BufferModel.Dispatched)
    requires s'.queue == s.queue[1..] && s'.threads == s.threads && s'.scheduler.Idle? && s'.records == s.records
    ensures EntriesKept(s') && EnqueuersKept(s')
  {
    SameThreadsAwait(s, s');
    assert s.queue == [s.queue[0]] + s'.queue;
    forall id <- s'.queue ensures id in s.queue && HasStatus(s', id, BufferModel.Queued) {
      var k :| 0 <= k < |s'.queue| && s'.queue[k] == id;
      assert s.queue[k + 1] == id;
    }
  }

  /** Any other scheduler step: no record becomes queued or dispatched, and none in the queue changes. */
  ghost predicate LeavesQueued(s: State, s': State) {
    && (forall id <- s'.records :: id in s.records)
    && (forall id <- s.records :: !s.records[id].status.Complete? && !s.records[id].status.Dispatched? ==>
          id in s'.records && s'.records[id].status == s.records[id].status)
    && (forall id <- s'.records :: s'.records[id].status.Queued? ==> s.records[id].status.Queued?)
  }

  lemma RemovalPhases(s: State, ok: bool)
    requires SchedulerHolds(s) && !s.scheduler.Marking? && !s.scheduler.Removing?
    ensures
      var s' := Schedule(s, s.scheduler, ok);
      && LeavesQueued(s, s')
      && (s.scheduler.ReadingForRemoval? ==>
            s'.scheduler.Removing? && s'.scheduler.id == s.scheduler.id && s'.records == s.records)
  {
  }

  lemma RestKeepsListed(s: State, s': State, id: JobId)
    requires EntriesKept(s) && LeavesQueued(s, s') && id in s.queue
    requires s.scheduler.ReadingForRemoval? ==>
      s'.scheduler.Removing? && s'.scheduler.id == s.scheduler.id && s'.records == s.records
    requires !s.scheduler.Removing?
    ensures HasStatus(s', id, BufferModel.Queued) || (BeingRemoved(s', id) && HasStatus(s', id, BufferModel.Dispatched))
  {
    if HasStatus(s, id, BufferModel.Queued) {
      assert id in s'.records && s'.records[id].status == s.records[id].status;
    } else {
      assert BeingRemoved(s, id);
    }
  }

  lemma RestKeepsEntries(s: State, s': State)
    requires EntriesKept(s) && EnqueuersKept(s) && LeavesQueued(s, s')
    requires s'.queue == s.queue && s'.threads == s.threads
    requires s.scheduler.ReadingForRemoval? ==>
      s'.scheduler.Removing? && s'.scheduler.id == s.scheduler.id && s'.records == s.records
    requires !s.scheduler.Removing?
    ensures EntriesKept(s') && EnqueuersKept(s')
  {
    SameThreadsAwait(s, s');
    forall id <- s'.queue
      ensures
        || HasStatus(s', id, BufferModel.Queued)
        || (BeingRemoved(s', id) && HasStatus(s', id, BufferModel.Dispatched))
    {
      RestKeepsListed(s, s', id);
    }
  }

  lemma SameThreadsAwait(s: State, s': State)
    requires s'.threads == s.threads
    ensures forall id :: ToBeEnqueued(s', id) <==> ToBeEnqueued(s, id)
  {
  }

  lemma ScheduleKeepsHead(s: State, ok: bool)
    requires Tracked(s) && QueueKept(s) && CopyCurrent(s, SchedulerStep(ok))
    ensures HeadKept(Schedule(s, s.scheduler, ok))
  {
    ScheduleQueue(s, ok);
    if LooksForJob(s.scheduler) {
      PickedIsHead(s, ok);
    } else {
      HeldStaysHead(s, ok);
    }
  }

  predicate LooksForJob(pc: Scheduler) {
    pc.OpeningQueue? || pc.Picking? || pc.ReopeningQueue? || pc.Rechecking?
  }

  /** What is picked or rechecked is the first entry read, which is the head of the queue. */
  lemma PickedIsHead(s: State, ok: bool)
    requires EntriesKept(s) && HeadKept(s) && LooksForJob(s.scheduler)
    ensures HeadKept(Schedule(s, s.scheduler, ok))
  {
    if s.queue != [] {
      assert s.queue[0] in s.queue;
    }
  }

  lemma HeldStaysHead(s: State, ok: bool)
    requires HeadKept(s) && !LooksForJob(s.scheduler)
    requires !s.scheduler.Removing? ==> Schedule(s, s.scheduler, ok).queue == s.queue
    ensures HeadKept(Schedule(s, s.scheduler, ok))
  {
  }

  lemma ScheduleKeepsQueue(s: State, ok: bool)
    requires Tracked(s) && QueueKept(s) && CopyCurrent(s, SchedulerStep(ok))
    ensures QueueKept(Schedule(s, s.scheduler, ok))
  {
    ScheduleKeepsEntries(s, ok);
    ScheduleKeepsHead(s, ok);
    ScheduleConserves(s, ok);
  }

  lemma ScheduleConserves(s: State, ok: bool)
    requires SchedulerHolds(s) && QueueKept(s) && CopyCurrent(s, SchedulerStep(ok))
    ensures Conserved(Schedule(s, s.scheduler, ok))
  {
    ScheduleQueue(s, ok);
    ScheduleAdvances(s, ok);
    if s.scheduler.Removing? {
      assert s.queue == [s.queue[0]] + s.queue[1..];
      assert s.log.removed + ([s.queue[0]] + s.queue[1..]) == (s.log.removed + [s.queue[0]]) + s.queue[1..];
    }
  }

  lemma OtherStepsKeepQueue(s: State, l: Label)
    requires QueueKept(s) && RestartQuiet(s, l) && !l.SchedulerStep? && !Moves(s, l)
    ensures QueueKept(Apply(s, l))
  {
    var s' := Apply(s, l);
    if !l.ThreadStep? {
      OtherStepsTouchNothing(s, l);
      forall id <- s'.records | s'.records[id].status.Queued? && id !in s'.queue ensures ToBeEnqueued(s', id) {
        var t :| t in s.threads && Enqueuing(s.threads[t]) && s.threads[t].id == id;
        assert t in s'.threads && s'.threads[t] == s.threads[t];
      }
    }
  }

  lemma QueueKeptInStep(s: State, l: Label)
    requires Tracked(s) && QueueKept(s) && GuardedStep(s, l)
    ensures QueueKept(Apply(s, l))
  {
    if Moves(s, l) {
      TurnKeepsQueue(s, l);
    } else if l.SchedulerStep? {
      ScheduleKeepsQueue(s, l.ok);
    } else {
      OtherStepsKeepQueue(s, l);
    }
  }

  // ---------------------------------------------------------------- first in, first out

  lemma ConservedIff(s: State, l: Label)
    requires Conserved(s)
    ensures Conserves(s, l) <==> CopyCurrent(s, l)
  {
    if Moves(s, l) {
      TurnQueue(s, l);
      TurnLogs(s, l);
      if s.threads[l.t].WritingQueue? {
        AppendIff(s.log.removed, s.threads[l.t].ids, s.queue, s.threads[l.t].id);
      }
    } else if l.SchedulerStep? {
      ScheduleLogs(s, l.ok);
      if s.scheduler.Removing? {
        RemoveIff(s.log.removed, s.scheduler.id, BufferModel.Without(s.scheduler.ids, s.scheduler.id), s.queue);
      }
    } else if !l.ThreadStep? {
      OtherStepsTouchNothing(s, l);
    }
  }

  lemma ScheduleLogs(s: State, ok: bool)
    ensures
      var s' := Schedule(s, s.scheduler, ok);
      && s'.log.enqueued == s.log.enqueued
      && (if s.scheduler.Removing? then
            && s'.queue == BufferModel.Without(s.scheduler.ids, s.scheduler.id)
            && s'.log.removed == s.log.removed + [s.scheduler.id]
          else s'.queue == s.queue && s'.log.removed == s.log.removed)
  {
  }

  lemma AppendIff(a: seq<JobId>, b: seq<JobId>, c: seq<JobId>, x: JobId)
    ensures a + (b + [x]) == (a + c) + [x] <==> b == c
  {
    assert a + (b + [x]) == (a + b) + [x];
    if (a + b) + [x] == (a + c) + [x] {
      assert a + b == ((a + b) + [x])[..|a + b|] == ((a + c) + [x])[..|a + c|] == a + c;
      assert b == (a + b)[|a|..] == (a + c)[|a|..] == c;
    }
  }

  lemma RemoveIff(a: seq<JobId>, x: JobId, rest: seq<JobId>, c: seq<JobId>)
    ensures (a + [x]) + rest == a + c <==> [x] + rest == c
  {
    assert (a + [x]) + rest == a + ([x] + rest);
    if a + ([x] + rest) == a + c {
      assert [x] + rest == (a + ([x] + rest))[|a|..] == (a + c)[|a|..] == c;
    }
  }

  lemma {:induction false} CurrentConserves(steps: seq<Label>)
    requires Always(CopyCurrent, steps)
    ensures Conserved(Exec(steps))
  {
    if steps != [] {
      CurrentConserves(steps[..|steps| - 1]);
      ConservedIff(Exec(steps[..|steps| - 1]), steps[|steps| - 1]);
    }
  }

  /** Over any run the queue is first in, first out at every step exactly if every write of it changes
      only by the job appended or removed what is on disk. */
  lemma {:induction false} FifoIff(steps: seq<Label>)
    ensures Always(Conserves, steps) <==> Always(CopyCurrent, steps)
  {
    if steps != [] {
      var init := steps[..|steps| - 1];
      FifoIff(init);
      if Always(CopyCurrent, init) {
        CurrentConserves(init);
        ConservedIff(Exec(init), steps[|steps| - 1]);
      }
    }
  }

  // ---------------------------------------------------------------- the queued jobs, each once

  /** The queue is first in, first out, and lists the queued jobs, each once, but for those that one
      thread is about to append; and one dispatched job that is being removed. */
  ghost predicate QueueSound(s: State) {
    EntriesKept(s) && EnqueuersKept(s) && Conserved(s)
  }

  ghost predicate SoundStep(s: State, l: Label) {
    MovesForward(s, l) && QueueSound(Apply(s, l))
  }

  predicate QueueGuarded(s: State, l: Label) {
    CopyCurrent(s, l) && RestartQuiet(s, l)
  }

  predicate GuardedStep(s: State, l: Label) {
    SaveFresh(s, l) && QueueGuarded(s, l)
  }

  lemma {:induction false} QueueHoldsQueued(steps: seq<Label>)
    requires Always(GuardedStep, steps)
    ensures Tracked(Exec(steps)) && QueueKept(Exec(steps))
  {
    if steps != [] {
      QueueHoldsQueued(steps[..|steps| - 1]);
      TrackedInStep(Exec(steps[..|steps| - 1]), steps[|steps| - 1]);
      QueueKeptInStep(Exec(steps[..|steps| - 1]), steps[|steps| - 1]);
    }
  }

  /** A restart between a save and its append leaves a queued job out of the queue, and one between a
      mark and its removal leaves a dispatched job in it. */
  lemma LoudRestartBreaksEntries(s: State)
    requires Tracked(s) && QueueKept(s) && !RestartQuiet(s, Restart)
    ensures !EntriesKept(Apply(s, Restart))
  {
    var s' := Apply(s, Restart);
    if s.scheduler.ReadingForRemoval? || s.scheduler.Removing? {
      assert s.scheduler.id in s'.queue;
    } else {
      var t :| t in s.threads && Enqueuing(s.threads[t]);
      assert HasStatus(s', s.threads[t].id, BufferModel.Queued) && s.threads[t].id !in s'.queue;
      assert !ToBeEnqueued(s', s.threads[t].id);
    }
  }

  /** A save of a job that another upload has queued already gives it two appends. */
  lemma SecondSaveBreaksEnqueuers(s: State, l: Label)
    requires QueueKept(s) && SaveKeeps(s, l) && !SaveFresh(s, l)
    ensures !EnqueuersKept(Apply(s, l))
  {
    var (s', id) := (Apply(s, l), s.threads[l.t].id);
    ThreadTurns(s, l);
    TurnQueue(s, l);
    assert s'.threads[l.t].id == id && Enqueuing(s'.threads[l.t]);
    if id !in s.queue {
      var t :| t in s.threads && Enqueuing(s.threads[t]) && s.threads[t].id == id;
      assert t in s'.threads && Enqueuing(s'.threads[t]) && s'.threads[t].id == id && t != l.t;
    }
  }

  lemma SoundIff(s: State, l: Label)
    requires Tracked(s) && QueueKept(s)
    ensures SoundStep(s, l) <==> GuardedStep(s, l)
  {
    ForwardIff(s, l);
    ConservedIff(s, l);
    if GuardedStep(s, l) {
      QueueKeptInStep(s, l);
    } else if !RestartQuiet(s, l) {
      LoudRestartBreaksEntries(s);
    } else if SaveKeeps(s, l) && !SaveFresh(s, l) {
      SecondSaveBreaksEnqueuers(s, l);
    }
  }

  /** Over a whole run the lifecycle holds and the queue is sound at every step exactly if every save
      finds the record it read still pending, every write of the queue finds the queue it read, and no
      restart comes between a save and its append or between a mark and its removal. */
  lemma {:induction false} QueueSoundIff(steps: seq<Label>)
    ensures Always(SoundStep, steps) <==> Always(GuardedStep, steps)
  {
    if steps != [] {
      var init := steps[..|steps| - 1];
      QueueSoundIff(init);
      if Always(GuardedStep, init) {
        QueueHoldsQueued(init);
        SoundIff(Exec(init), steps[|steps| - 1]);
      }
    }
  }

  ghost predicate StaysSound(s: State, l: Label) {
    EntriesKept(Apply(s, l)) && Conserved(Apply(s, l))
  }

  lemma StaysSoundIff(s: State, l: Label)
    requires Tracked(s) && QueueKept(s) && SaveFresh(s, l)
    ensures StaysSound(s, l) <==> QueueGuarded(s, l)
  {
    ConservedIff(s, l);
    if QueueGuarded(s, l) {
      QueueKeptInStep(s, l);
    } else if !RestartQuiet(s, l) {
      LoudRestartBreaksEntries(s);
    }
  }

  /** With serial requests the queue lists the queued jobs, each once, and is first in, first out at every
      step exactly under the last two of these conditions. */
  lemma {:induction false} SerialQueueSoundIff(steps: seq<Label>)
    requires Always(Serial, steps)
    ensures Always(StaysSound, steps) <==> Always(QueueGuarded, steps)
    ensures Always(QueueGuarded, steps) ==> Always(GuardedStep, steps)
  {
    if steps != [] {
      var init := steps[..|steps| - 1];
      SerialSavesKeep(steps);
      SerialQueueSoundIff(init);
      if Always(QueueGuarded, init) {
        QueueHoldsQueued(init);
        StaysSoundIff(Exec(init), steps[|steps| - 1]);
      }
    }
  }

  // ---------------------------------------------------------------- exclusive updates

  /** At most one update of the queue is under way, and its copy is what is on disk. */
  ghost predicate OneUpdate(s: State) {
    && (forall t <- s.threads :: s.threads[t].WritingQueue? ==> s.threads[t].ids == s.queue && !s.scheduler.Removing?)
    && (forall t, u ::
          t in s.threads && u in s.threads && s.threads[t].WritingQueue? && s.threads[u].WritingQueue? ==> t == u)
    && (s.scheduler.Removing? ==> s.scheduler.ids == s.queue)
  }

  lemma OneUpdateInTurn(s: State, l: Label)
    requires OneUpdate(s) && Exclusive(s, l) && Moves(s, l)
    ensures OneUpdate(Apply(s, l))
  {
    TurnReads(s, l);
    OneUpdateAfterTurn(s, l, Apply(s, l));
  }

  /** A turn that reads the queue has what is on disk, and one that writes it ends. */
  ghost predicate ReadTurn(s: State, s': State, t: nat) {
    && t in s.threads && s'.scheduler == s.scheduler
    && (if s.threads[t].ReadingQueue? then
          && s'.queue == s.queue && s'.threads == s.threads[t := WritingQueue(s.threads[t].id, s.queue)]
        else if s.threads[t].WritingQueue? then s'.threads == s.threads - {t}
        else
          && s'.queue == s.queue
          && (s'.threads == s.threads - {t}
              || (t in s'.threads && s'.threads == s.threads[t := s'.threads[t]] && !s'.threads[t].WritingQueue?)))
  }

  lemma TurnReads(s: State, l: Label)
    requires Moves(s, l)
    ensures ReadTurn(s, Apply(s, l), l.t)
  {
  }

  lemma OneUpdateAfterTurn(s: State, l: Label, s': State)
    requires OneUpdate(s) && Exclusive(s, l) && Moves(s, l) && ReadTurn(s, s', l.t)
    ensures OneUpdate(s')
  {
  }

  lemma OneUpdateInSchedule(s: State, l: Label)
    requires OneUpdate(s) && Exclusive(s, l) && l.SchedulerStep?
    ensures OneUpdate(Apply(s, l))
  {
    ScheduleAtQueue(s, l.ok);
  }

  lemma ScheduleAtQueue(s: State, ok: bool)
    ensures
      var s' := Schedule(s, s.scheduler, ok);
      && s'.threads == s.threads
      && (s'.scheduler.Removing? ==> s.scheduler.ReadingForRemoval? && s'.scheduler.ids == s.queue)
      && (!s.scheduler.Removing? ==> s'.queue == s.queue)
  {
  }

  /** If the queue is read for an update only while nobody else updates it, every queue write is from
      a current copy. */
  lemma OneUpdateIsCurrent(s: State, l: Label)
    requires OneUpdate(s) && QueueKept(s)
    ensures CopyCurrent(s, l)
  {
    if s.scheduler.Removing? {
      BufferInvariant.WithoutHead(s.queue);
      assert s.queue == [s.queue[0]] + s.queue[1..];
    }
  }

  lemma OneUpdateInStep(s: State, l: Label)
    requires OneUpdate(s) && Exclusive(s, l)
    ensures OneUpdate(Apply(s, l))
  {
    if Moves(s, l) {
      OneUpdateInTurn(s, l);
    } else if l.SchedulerStep? {
      OneUpdateInSchedule(s, l);
    } else {
      OneUpdateInOther(s, l);
    }
  }

  lemma {:induction false} ExclusiveIsGuarded(steps: seq<Label>)
    requires Always(Serial, steps) && Always(RestartQuiet, steps) && Always(Exclusive, steps)
    ensures OneUpdate(Exec(steps)) && Always(GuardedStep, steps)
  {
    if steps != [] {
      var init, l := steps[..|steps| - 1], steps[|steps| - 1];
      ExclusiveIsGuarded(init);
      SerialSavesKeep(steps);
      QueueHoldsQueued(init);
      OneUpdateIsCurrent(Exec(init), l);
      OneUpdateInStep(Exec(init), l);
    }
  }

  lemma OneUpdateInOther(s: State, l: Label)
    requires OneUpdate(s) && !Moves(s, l) && !l.SchedulerStep?
    ensures OneUpdate(Apply(s, l))
  {
  }

  /** So with serial requests, exclusive queue updates and quiet restarts the queue results hold
      without atomic uploads. */
  lemma ExclusiveUpdatesKeepQueue(steps: seq<Label>)
    requires Always(Serial, steps) && Always(RestartQuiet, steps) && Always(Exclusive, steps)
    ensures
      var s := Exec(steps);
      && s.log.enqueued == s.log.removed + s.queue
      && BufferModel.NoDuplicates(s.queue)
      && (forall id <- s.queue ::
            HasStatus(s, id, BufferModel.Queued) || (BeingRemoved(s, id) && HasStatus(s, id, BufferModel.Dispatched)))
      && (forall id <- s.records :: s.records[id].status.Queued? ==> id in s.queue || ToBeEnqueued(s, id))
  {
    ExclusiveIsGuarded(steps);
    QueueHoldsQueued(steps);
  }
}
