/** Runs that show each condition of UploadGuards, UploadPayloads and UploadQueue is needed. */
module UploadCounterRuns {
  import BufferModel
  import opened Bytes
  import opened UploadGuards
  import opened UploadQueue
  import opened UploadRaces
  import opened Wrappers

  // ---------------------------------------------------------------- building runs

  /** s is the state that steps lead to, and every step met p. (Quantified so that Exec unfolds only
      where it is asked to.) */
  ghost predicate RunsTo(p: (State, Label) -> bool, steps: seq<Label>, s: State) {
    forall k :: k == |steps| ==> Exec(steps[..k]) == s && Always(p, steps[..k])
  }

  lemma RunsToIs(p: (State, Label) -> bool, steps: seq<Label>, s: State)
    ensures RunsTo(p, steps, s) <==> Exec(steps) == s && Always(p, steps)
  {
    assert steps[..|steps|] == steps;
  }

  lemma Extend(p: (State, Label) -> bool, steps: seq<Label>, s: State, l: Label) returns (longer: seq<Label>, s': State)
    requires RunsTo(p, steps, s) && p(s, l)
    ensures RunsTo(p, longer, s') && s' == Apply(s, l)
  {
    longer, s' := steps + [l], Apply(s, l);
    RunsToIs(p, steps, s);
    assert longer[..|longer| - 1] == steps;
    RunsToIs(p, longer, s');
  }

  /** A step of a request or of the scheduler that saves what it read. */
  predicate Mild(s: State, l: Label) {
    !l.StartCreate? && !l.StartUpload? && !l.Restart? && SaveKeeps(s, l)
  }

  ghost predicate Allows(p: (State, Label) -> bool) {
    forall s, l :: Mild(s, l) ==> p(s, l)
  }

  /** A create, up to its end. */
  lemma Create(p: (State, Label) -> bool, steps: seq<Label>, s: State, t: nat, id: JobId)
    returns (run: seq<Label>, s': State)
    requires RunsTo(p, steps, s) && Allows(p) && p(s, StartCreate(t, id, false))
    requires t !in s.threads && id !in s.dirs && id !in s.records
    ensures RunsTo(p, run, s')
    ensures s' == s.(records := s.records[id := Record(s.nextUid, BufferModel.PendingUpload, false)],
                     dirs := s.dirs[id := map[]], nextUid := s.nextUid + 1,
                     log := s.log.(births := s.log.births + {s.nextUid}))
  {
    run, s' := Extend(p, steps, s, StartCreate(t, id, false));
    assert Mild(s', ThreadStep(t, true));
    run, s' := Extend(p, run, s', ThreadStep(t, true));
    assert Mild(s', ThreadStep(t, true));
    run, s' := Extend(p, run, s', ThreadStep(t, true));
    assert s'.threads == s.threads;
  }

  /** An upload, up to the hash check. */
  lemma Write(p: (State, Label) -> bool, steps: seq<Label>, s: State, t: nat, id: JobId, a: Artifact, data: Data)
    returns (run: seq<Label>, s': State)
    requires RunsTo(p, steps, s) && Allows(p) && p(s, StartUpload(t, id, a, data))
    requires t !in s.threads && HasStatus(s, id, BufferModel.PendingUpload)
    ensures RunsTo(p, run, s')
    ensures s' == s.(dirs := s.dirs[id := FilesIn(s, id)[a := data]],
                     threads := s.threads[t := Checking(id, a, s.records[id])])
  {
    run, s' := Extend(p, steps, s, StartUpload(t, id, a, data));
    assert Mild(s', ThreadStep(t, true));
    run, s' := Extend(p, run, s', ThreadStep(t, true));
  }

  /** The hash is right and the model is there. */
  lemma LookAtModel(p: (State, Label) -> bool, steps: seq<Label>, s: State, t: nat, id: JobId, record: Record)
    returns (run: seq<Label>, s': State)
    requires RunsTo(p, steps, s) && Allows(p) && t in s.threads && s.threads[t].Checking?
    requires s.threads[t].id == id && s.threads[t].record == record && !record.preprocessingCommitted
    requires BufferModel.Model in FilesIn(s, id)
    ensures RunsTo(p, run, s') && s' == s.(threads := s.threads[t := Looking(id, record, [BufferModel.Weights])])
  {
    assert Mild(s, ThreadStep(t, true));
    run, s' := Extend(p, steps, s, ThreadStep(t, true));
    assert Required(record) == [BufferModel.Model, BufferModel.Weights];
    assert Required(record)[1..] == [BufferModel.Weights];
    assert Mild(s', ThreadStep(t, true));
    run, s' := Extend(p, run, s', ThreadStep(t, true));
    assert s'.threads == s.threads[t := Looking(id, record, [BufferModel.Weights])];
  }

  /** The first artifact of two arrives: the record is saved as it was. */
  lemma ModelArrives(p: (State, Label) -> bool, steps: seq<Label>, s: State, t: nat, id: JobId, data: Data)
    returns (run: seq<Label>, s': State)
    requires RunsTo(p, steps, s) && Allows(p) && p(s, StartUpload(t, id, BufferModel.Model, data))
    requires t !in s.threads && HasStatus(s, id, BufferModel.PendingUpload) && !s.records[id].preprocessingCommitted
    requires BufferModel.Weights !in FilesIn(s, id)
    ensures RunsTo(p, run, s')
    ensures s' == s.(dirs := s.dirs[id := FilesIn(s, id)[BufferModel.Model := data]])
  {
    run, s' := Write(p, steps, s, t, id, BufferModel.Model, data);
    run, s' := LookAtModel(p, run, s', t, id, s.records[id]);
    assert Mild(s', ThreadStep(t, true));
    run, s' := Extend(p, run, s', ThreadStep(t, true));
    assert s'.threads == s.threads[t := Saving(id, s.records[id])];
    assert Mild(s', ThreadStep(t, true));
    run, s' := Extend(p, run, s', ThreadStep(t, true));
    assert s'.threads == s.threads && s'.records == s.records;
    assert s'.dirs == s.dirs[id := FilesIn(s, id)[BufferModel.Model := data]];
  }

  /** The last artifact arrives, up to the point where the thread is about to save a queued record. */
  lemma WeightsUpToSave(p: (State, Label) -> bool, steps: seq<Label>, s: State, t: nat, id: JobId, data: Data)
    returns (run: seq<Label>, s': State)
    requires RunsTo(p, steps, s) && Allows(p) && p(s, StartUpload(t, id, BufferModel.Weights, data))
    requires t !in s.threads && HasStatus(s, id, BufferModel.PendingUpload) && !s.records[id].preprocessingCommitted
    requires BufferModel.Model in FilesIn(s, id)
    ensures RunsTo(p, run, s')
    ensures s' == s.(dirs := s.dirs[id := FilesIn(s, id)[BufferModel.Weights := data]],
                     threads := s.threads[t := Saving(id, s.records[id].(status := BufferModel.Queued))])
  {
    run, s' := Write(p, steps, s, t, id, BufferModel.Weights, data);
    run, s' := LookAtModel(p, run, s', t, id, s.records[id]);
    assert Mild(s', ThreadStep(t, true));
    run, s' := Extend(p, run, s', ThreadStep(t, true));
    assert [BufferModel.Weights][1..] == [];
    assert s'.threads == s.threads[t := Looking(id, s.records[id], [])];
    assert Mild(s', ThreadStep(t, true));
    run, s' := Extend(p, run, s', ThreadStep(t, true));
  }

  /** The queued record is saved. */
  lemma Save(p: (State, Label) -> bool, steps: seq<Label>, s: State, t: nat, id: JobId)
    returns (run: seq<Label>, s': State)
    requires RunsTo(p, steps, s) && p(s, ThreadStep(t, true)) && id in s.dirs
    requires t in s.threads && s.threads[t].Saving? && s.threads[t].id == id && s.threads[t].record.status.Queued?
    ensures RunsTo(p, run, s')
    ensures s' == s.(records := s.records[id := s.threads[t].record], threads := s.threads[t := ReadingQueue(id)])
  {
    run, s' := Extend(p, steps, s, ThreadStep(t, true));
    assert s'.dirs == s.dirs;
  }

  /** The job is appended to the queue. */
  lemma Append(p: (State, Label) -> bool, steps: seq<Label>, s: State, t: nat, id: JobId)
    returns (run: seq<Label>, s': State)
    requires RunsTo(p, steps, s) && Allows(p) && t in s.threads && s.threads[t] == ReadingQueue(id)
    ensures RunsTo(p, run, s')
    ensures s' == s.(queue := s.queue + [id], threads := s.threads - {t},
                     log := s.log.(enqueued := s.log.enqueued + [id]))
  {
    assert Mild(s, ThreadStep(t, true));
    run, s' := Extend(p, steps, s, ThreadStep(t, true));
    assert Mild(s', ThreadStep(t, true));
    run, s' := Extend(p, run, s', ThreadStep(t, true));
    assert s'.threads == s.threads - {t};
  }

  /** With no job dispatched the scan goes through. */
  lemma {:induction false} Scan(p: (State, Label) -> bool, steps: seq<Label>, s: State, ids: seq<JobId>)
    returns (run: seq<Label>, s': State)
    requires RunsTo(p, steps, s) && Allows(p) && s.scheduler == Scanning(ids) && NoneDispatched(s)
    ensures RunsTo(p, run, s') && s' == s.(scheduler := OpeningQueue)
    decreases |ids|
  {
    assert Mild(s, SchedulerStep(true));
    run, s' := Extend(p, steps, s, SchedulerStep(true));
    if ids != [] {
      run, s' := Scan(p, run, s', ids[1..]);
    }
  }

  /** The head of the queue is picked, provisioned and rechecked, up to a payload to send. */
  lemma PickAndBuild(p: (State, Label) -> bool, steps: seq<Label>, s: State, listing: seq<JobId>, id: JobId)
    returns (run: seq<Label>, s': State)
    requires RunsTo(p, steps, s) && Allows(p) && s.scheduler.Idle? && NoneDispatched(s)
    requires s.records.Keys <= (set k | k in listing)
    requires AtHead(s, id) && HasStatus(s, id, BufferModel.Queued)
    requires BufferModel.Model in FilesIn(s, id) && BufferModel.Weights in FilesIn(s, id)
    requires BufferModel.Preprocessing !in FilesIn(s, id)
    ensures RunsTo(p, run, s')
    ensures
      var d := Delivery(s.records[id].uid, TwoFiles(FilesIn(s, id)));
      s' == s.(scheduler := Sending(id, d), log := s.log.(builds := s.log.builds + [d]))
  {
    run, s' := Pick(p, steps, s, listing, id);
    run, s' := RecheckHead(p, run, s', id);
    assert Mild(s', SchedulerStep(true));
    run, s' := Extend(p, run, s', SchedulerStep(true));
    assert Mild(s', SchedulerStep(true));
    run, s' := Extend(p, run, s', SchedulerStep(true));
    assert Mild(s', SchedulerStep(true));
    run, s' := Extend(p, run, s', SchedulerStep(true));
  }

  function TwoFiles(files: Files): Payload
    requires BufferModel.Model in files && BufferModel.Weights in files
  {
    Payload(files[BufferModel.Model], files[BufferModel.Weights], None)
  }

  lemma Pick(p: (State, Label) -> bool, steps: seq<Label>, s: State, listing: seq<JobId>, id: JobId)
    returns (run: seq<Label>, s': State)
    requires RunsTo(p, steps, s) && Allows(p) && s.scheduler.Idle? && NoneDispatched(s)
    requires s.records.Keys <= (set k | k in listing)
    requires AtHead(s, id) && HasStatus(s, id, BufferModel.Queued)
    ensures RunsTo(p, run, s') && s' == s.(scheduler := Provisioning(id, s.records[id]))
  {
    assert Mild(s, BeginScan(listing));
    run, s' := Extend(p, steps, s, BeginScan(listing));
    run, s' := Scan(p, run, s', listing);
    assert Mild(s', SchedulerStep(true));
    run, s' := Extend(p, run, s', SchedulerStep(true));
    assert Mild(s', SchedulerStep(true));
    run, s' := Extend(p, run, s', SchedulerStep(true));
  }

  lemma RecheckHead(p: (State, Label) -> bool, steps: seq<Label>, s: State, id: JobId)
    returns (run: seq<Label>, s': State)
    requires RunsTo(p, steps, s) && Allows(p) && s.scheduler.Provisioning? && s.scheduler.id == id
    requires AtHead(s, id) && HasStatus(s, id, BufferModel.Queued)
    ensures RunsTo(p, run, s') && s' == s.(scheduler := ReadingModel(id, s.records[id].uid))
  {
    assert Mild(s, SchedulerStep(true));
    run, s' := Extend(p, steps, s, SchedulerStep(true));
    assert Mild(s', SchedulerStep(true));
    run, s' := Extend(p, run, s', SchedulerStep(true));
    assert Mild(s', SchedulerStep(true));
    run, s' := Extend(p, run, s', SchedulerStep(true));
  }

  lemma Send(p: (State, Label) -> bool, steps: seq<Label>, s: State) returns (run: seq<Label>, s': State)
    requires RunsTo(p, steps, s) && Allows(p) && s.scheduler.Sending?
    ensures RunsTo(p, run, s')
    ensures s' == s.(scheduler := Loading(s.scheduler.id), log := s.log.(sends := s.log.sends + [s.scheduler.delivery]))
  {
    assert Mild(s, SchedulerStep(true));
    run, s' := Extend(p, steps, s, SchedulerStep(true));
  }

  /** The job just sent is marked, up to the removal from the queue. */
  lemma MarkLoaded(p: (State, Label) -> bool, steps: seq<Label>, s: State, id: JobId)
    returns (run: seq<Label>, s': State)
    requires RunsTo(p, steps, s) && Allows(p) && s.scheduler == Loading(id) && id in s.records && id in s.dirs
    ensures RunsTo(p, run, s')
    ensures s' == s.(records := s.records[id := s.records[id].(status := BufferModel.Dispatched)],
                     scheduler := ReadingForRemoval(id))
  {
    assert Mild(s, SchedulerStep(true));
    run, s' := Extend(p, steps, s, SchedulerStep(true));
    assert Mild(s', SchedulerStep(true));
    run, s' := Extend(p, run, s', SchedulerStep(true));
    assert s'.dirs == s.dirs;
  }

  lemma Remove(p: (State, Label) -> bool, steps: seq<Label>, s: State, id: JobId) returns (run: seq<Label>, s': State)
    requires RunsTo(p, steps, s) && Allows(p) && s.scheduler == ReadingForRemoval(id) && s.queue == [id]
    ensures RunsTo(p, run, s')
    ensures s' == s.(queue := [], scheduler := Idle, log := s.log.(removed := s.log.removed + [id]))
  {
    assert Mild(s, SchedulerStep(true));
    run, s' := Extend(p, steps, s, SchedulerStep(true));
    assert BufferModel.Without([id], id) == BufferModel.Without([id][1..], id) == [];
    assert Mild(s', SchedulerStep(true));
    run, s' := Extend(p, run, s', SchedulerStep(true));
  }

  /** A job with its model, waiting for its weights. */
  lemma JobWithModel(p: (State, Label) -> bool, steps: seq<Label>, s: State, t: nat, id: JobId, model: Data)
    returns (run: seq<Label>, s': State)
    requires RunsTo(p, steps, s) && Allows(p) && p(s, StartCreate(t, id, false))
    requires forall s0: State :: s0.threads == s.threads ==> p(s0, StartUpload(t, id, BufferModel.Model, model))
    requires t !in s.threads && id !in s.dirs && id !in s.records
    ensures RunsTo(p, run, s')
    ensures s' == s.(records := s.records[id := Record(s.nextUid, BufferModel.PendingUpload, false)],
                     dirs := s.dirs[id := map[BufferModel.Model := model]], nextUid := s.nextUid + 1,
                     log := s.log.(births := s.log.births + {s.nextUid}))
  {
    run, s' := Create(p, steps, s, t, id);
    run, s' := ModelArrives(p, run, s', t, id, model);
    assert s'.dirs == s.dirs[id := map[BufferModel.Model := model]];
  }

  // ---------------------------------------------------------------- the runs

  /** Two overlapping uploads of a last artifact, without any restart: the second saves its stale copy
      after the job was dispatched, the job is queued again, and the same incarnation is sent again. */
  lemma RacingUploadsSendTwice(id: JobId, model: Data, weights: Data) returns (run: seq<Label>)
    ensures Always(RestartSafe, run)
    ensures var sends := Exec(run).log.sends; |sends| == 2 && sends[0].uid == sends[1].uid
  {
    var s := INIT;
    run := [];
    RunsToIs(RestartSafe, run, s);
    run, s := JobWithModel(RestartSafe, run, s, 0, id, model);
    run, s := WeightsUpToSave(RestartSafe, run, s, 1, id, weights);
    run, s := WeightsUpToSave(RestartSafe, run, s, 2, id, weights);
    run, s := Save(RestartSafe, run, s, 1, id);
    run, s := Append(RestartSafe, run, s, 1, id);
    run, s := DispatchOnly(RestartSafe, run, s, id);
    run, s := Save(RestartSafe, run, s, 2, id);
    run, s := Append(RestartSafe, run, s, 2, id);
    run, s := PickAndBuild(RestartSafe, run, s, [id], id);
    run, s := Send(RestartSafe, run, s);
    RunsToIs(RestartSafe, run, s);
  }

  /** A round that dispatches the only job there is. */
  lemma DispatchOnly(p: (State, Label) -> bool, steps: seq<Label>, s: State, id: JobId)
    returns (run: seq<Label>, s': State)
    requires RunsTo(p, steps, s) && Allows(p) && s.scheduler.Idle? && s.queue == [id]
    requires s.records.Keys == {id} && s.records[id].status.Queued? && id in s.dirs
    requires s.dirs[id].Keys == {BufferModel.Model, BufferModel.Weights}
    ensures RunsTo(p, run, s')
    ensures s'.scheduler.Idle? && s'.queue == [] && s'.threads == s.threads && s'.dirs == s.dirs
    ensures s'.records == s.records[id := s.records[id].(status := BufferModel.Dispatched)]
    ensures |s'.log.sends| == |s.log.sends| + 1 && s'.log.sends[|s.log.sends|].uid == s.records[id].uid
    ensures s.log.sends <= s'.log.sends
  {
    run, s' := PickAndBuild(p, steps, s, [id], id);
    run, s' := Send(p, run, s');
    run, s' := MarkLoaded(p, run, s', id);
    run, s' := Remove(p, run, s', id);
  }

  /** A queued job with both files, by serial requests. */
  lemma QueuedJob(id: JobId, model: Data, weights: Data) returns (run: seq<Label>, s: State)
    ensures RunsTo(Serial, run, s) && s.queue == [id] && s.scheduler.Idle? && s.threads == map[] && s.log.sends == []
    ensures s.records == map[id := Record(0, BufferModel.Queued, false)]
    ensures s.dirs == map[id := map[BufferModel.Model := model, BufferModel.Weights := weights]]
  {
    s := INIT;
    run := [];
    RunsToIs(Serial, run, s);
    run, s := JobWithModel(Serial, run, s, 0, id, model);
    run, s := WeightsUpToSave(Serial, run, s, 1, id, weights);
    run, s := Save(Serial, run, s, 1, id);
    run, s := Append(Serial, run, s, 1, id);
  }

  /** A restart between a send and its mark: with serial requests the incarnation is sent again. */
  lemma RestartSendsTwice(id: JobId, model: Data, weights: Data) returns (run: seq<Label>)
    ensures Always(Serial, run)
    ensures var sends := Exec(run).log.sends; |sends| == 2 && sends[0].uid == sends[1].uid
  {
    var s;
    run, s := QueuedJob(id, model, weights);
    run, s := PickAndBuild(Serial, run, s, [id], id);
    run, s := Send(Serial, run, s);
    run, s := Extend(Serial, run, s, Restart);
    run, s := PickAndBuild(Serial, run, s, [id], id);
    run, s := Send(Serial, run, s);
    RunsToIs(Serial, run, s);
  }

  /** A restart between a save and its append: with serial requests a queued job is left out of the
      queue, with nobody to append it. */
  lemma RestartLosesJob(id: JobId, model: Data, weights: Data) returns (run: seq<Label>)
    ensures Always(Serial, run)
    ensures
      var s := Exec(run);
      HasStatus(s, id, BufferModel.Queued) && id !in s.queue && s.threads == map[] && s.scheduler.Idle?
  {
    var s := INIT;
    run := [];
    RunsToIs(Serial, run, s);
    run, s := JobWithModel(Serial, run, s, 0, id, model);
    run, s := WeightsUpToSave(Serial, run, s, 1, id, weights);
    run, s := Save(Serial, run, s, 1, id);
    run, s := Extend(Serial, run, s, Restart);
    RunsToIs(Serial, run, s);
  }

  /** A restart between a mark and its removal: with serial requests a dispatched job is left in the
      queue. */
  lemma RestartLeavesDispatched(id: JobId, model: Data, weights: Data) returns (run: seq<Label>)
    ensures Always(Serial, run)
    ensures
      var s := Exec(run);
      HasStatus(s, id, BufferModel.Dispatched) && id in s.queue && s.threads == map[] && s.scheduler.Idle?
  {
    var s;
    run, s := QueuedJob(id, model, weights);
    run, s := PickAndBuild(Serial, run, s, [id], id);
    run, s := Send(Serial, run, s);
    run, s := MarkLoaded(Serial, run, s, id);
    run, s := Extend(Serial, run, s, Restart);
    RunsToIs(Serial, run, s);
  }

  /** Two uploads of a last artifact that both save it before the job is picked: though the lifecycle
      holds, the queue lists the job twice. */
  lemma OverlappingSavesQueueTwice(id: JobId, model: Data, weights: Data) returns (run: seq<Label>)
    ensures Always(SaveKeeps, run)
    ensures Exec(run).queue == [id, id]
  {
    var s := INIT;
    run := [];
    RunsToIs(SaveKeeps, run, s);
    run, s := JobWithModel(SaveKeeps, run, s, 0, id, model);
    run, s := WeightsUpToSave(SaveKeeps, run, s, 1, id, weights);
    run, s := WeightsUpToSave(SaveKeeps, run, s, 2, id, weights);
    run, s := Save(SaveKeeps, run, s, 1, id);
    run, s := Save(SaveKeeps, run, s, 2, id);
    run, s := Append(SaveKeeps, run, s, 1, id);
    run, s := Append(SaveKeeps, run, s, 2, id);
    RunsToIs(SaveKeeps, run, s);
  }

  predicate SerialQuiet(s: State, l: Label) {
    Serial(s, l) && RestartQuiet(s, l)
  }

  lemma {:induction false} SerialQuietIs(steps: seq<Label>)
    requires Always(SerialQuiet, steps)
    ensures Always(Serial, steps) && Always(RestartQuiet, steps)
  {
    if steps != [] {
      SerialQuietIs(steps[..|steps| - 1]);
    }
  }

  /** Two jobs, each with its model. */
  lemma TwoJobs(a: JobId, b: JobId, model: Data) returns (run: seq<Label>, s: State)
    requires a != b
    ensures RunsTo(SerialQuiet, run, s) && s.queue == [] && s.scheduler.Idle? && s.threads == map[]
    ensures s.records == map[a := Record(0, BufferModel.PendingUpload, false),
                             b := Record(1, BufferModel.PendingUpload, false)]
    ensures s.dirs == map[a := map[BufferModel.Model := model], b := map[BufferModel.Model := model]]
  {
    s := INIT;
    run := [];
    RunsToIs(SerialQuiet, run, s);
    run, s := JobWithModel(SerialQuiet, run, s, 0, a, model);
    run, s := JobWithModel(SerialQuiet, run, s, 0, b, model);
  }

  /** Both jobs' last files have arrived, and their requests are about to save them as queued. */
  lemma TwoSavers(a: JobId, b: JobId, model: Data, weights: Data) returns (run: seq<Label>, s: State)
    requires a != b
    ensures RunsTo(SerialQuiet, run, s) && s.queue == [] && s.scheduler.Idle?
    ensures s.threads == map[1 := Saving(a, Record(0, BufferModel.Queued, false)),
                             2 := Saving(b, Record(1, BufferModel.Queued, false))]
    ensures s.records == map[a := Record(0, BufferModel.PendingUpload, false),
                             b := Record(1, BufferModel.PendingUpload, false)]
    ensures a in s.dirs && b in s.dirs && s.dirs[a] == map[BufferModel.Model := model, BufferModel.Weights := weights]
  {
    run, s := TwoJobs(a, b, model);
    run, s := WeightsUpToSave(SerialQuiet, run, s, 1, a, weights);
    run, s := WeightsUpToSave(SerialQuiet, run, s, 2, b, weights);
  }

  /** Two jobs, each with both files, whose requests are about to append them. */
  lemma TwoAppenders(a: JobId, b: JobId, model: Data, weights: Data) returns (run: seq<Label>, s: State)
    requires a != b
    ensures RunsTo(SerialQuiet, run, s) && s.queue == [] && s.scheduler.Idle?
    ensures s.threads == map[1 := ReadingQueue(a), 2 := ReadingQueue(b)]
    ensures s.records == map[a := Record(0, BufferModel.Queued, false), b := Record(1, BufferModel.Queued, false)]
    ensures a in s.dirs && s.dirs[a] == map[BufferModel.Model := model, BufferModel.Weights := weights]
  {
    run, s := TwoSavers(a, b, model, weights);
    run, s := Save(SerialQuiet, run, s, 1, a);
    run, s := Save(SerialQuiet, run, s, 2, b);
  }

  /** Two jobs, serial requests, no restart, overlapping appends: the one written last loses the other
      job, which stays queued on disk with nobody to append it. */
  lemma OverlappingAppendsLoseJob(a: JobId, b: JobId, model: Data, weights: Data) returns (run: seq<Label>)
    requires a != b
    ensures Always(Serial, run) && Always(RestartQuiet, run)
    ensures
      var s := Exec(run);
      HasStatus(s, a, BufferModel.Queued) && a !in s.queue && s.threads == map[] && s.scheduler.Idle?
  {
    var s;
    run, s := TwoAppenders(a, b, model, weights);
    run, s := Extend(SerialQuiet, run, s, ThreadStep(1, true));
    run, s := Extend(SerialQuiet, run, s, ThreadStep(2, true));
    assert s.threads == map[1 := WritingQueue(a, []), 2 := WritingQueue(b, [])];
    run, s := Extend(SerialQuiet, run, s, ThreadStep(1, true));
    run, s := Extend(SerialQuiet, run, s, ThreadStep(2, true));
    assert s.queue == [b] && s.threads == map[];
    RunsToIs(SerialQuiet, run, s);
    SerialQuietIs(run);
  }

  /** The first job is sent and marked while the second's request is about to append it. */
  lemma MarkedBesideAppender(a: JobId, b: JobId, model: Data, weights: Data) returns (run: seq<Label>, s: State)
    requires a != b
    ensures RunsTo(SerialQuiet, run, s) && s.queue == [a] && s.scheduler == ReadingForRemoval(a)
    ensures s.threads == map[2 := ReadingQueue(b)] && HasStatus(s, a, BufferModel.Dispatched)
  {
    run, s := TwoAppenders(a, b, model, weights);
    run, s := Append(SerialQuiet, run, s, 1, a);
    run, s := PickAndBuild(SerialQuiet, run, s, [a, b], a);
    run, s := Send(SerialQuiet, run, s);
    run, s := MarkLoaded(SerialQuiet, run, s, a);
    assert s.threads == map[2 := ReadingQueue(b)];
  }

  /** An append that overlaps the removal of a dispatched job puts it back into the queue. */
  lemma OverlappingRemovalIsUndone(a: JobId, b: JobId, model: Data, weights: Data) returns (run: seq<Label>)
    requires a != b
    ensures Always(Serial, run) && Always(RestartQuiet, run)
    ensures
      var s := Exec(run);
      HasStatus(s, a, BufferModel.Dispatched) && a in s.queue && s.threads == map[] && s.scheduler.Idle?
  {
    var s;
    run, s := MarkedBesideAppender(a, b, model, weights);
    run, s := Extend(SerialQuiet, run, s, ThreadStep(2, true));
    assert s.threads == map[2 := WritingQueue(b, [a])];
    run, s := Remove(SerialQuiet, run, s, a);
    run, s := Extend(SerialQuiet, run, s, ThreadStep(2, true));
    assert s.queue == [a, b] && s.threads == map[];
    RunsToIs(SerialQuiet, run, s);
    SerialQuietIs(run);
  }

  /** A queued job, and a request that read it while pending and has yet to write its file. */
  lemma QueuedBesideWriter(id: JobId, model: Data, other: Data, weights: Data) returns (run: seq<Label>, s: State)
    ensures RunsTo(SaveKeeps, run, s) && s.queue == [id] && s.scheduler.Idle? && s.log.builds == []
    ensures s.records == map[id := Record(0, BufferModel.Queued, false)]
    ensures s.dirs == map[id := map[BufferModel.Model := model, BufferModel.Weights := weights]]
    ensures s.threads == map[2 := Writing(id, BufferModel.Model, other, Record(0, BufferModel.PendingUpload, false))]
  {
    s := INIT;
    run := [];
    RunsToIs(SaveKeeps, run, s);
    run, s := JobWithModel(SaveKeeps, run, s, 0, id, model);
    run, s := Extend(SaveKeeps, run, s, StartUpload(2, id, BufferModel.Model, other));
    run, s := WeightsUpToSave(SaveKeeps, run, s, 1, id, weights);
    run, s := Save(SaveKeeps, run, s, 1, id);
    run, s := Append(SaveKeeps, run, s, 1, id);
  }

  /** A write that comes late: though every save finds what it read, and the late upload is rejected,
      the queued job's model changes, and two attempts carry different payloads. */
  lemma LateWriteChangesPayload(id: JobId, model: Data, other: Data, weights: Data) returns (run: seq<Label>)
    requires model != other
    ensures Always(SaveKeeps, run)
    ensures
      var builds := Exec(run).log.builds;
      && |builds| == 2 && builds[0].uid == builds[1].uid
      && builds[0].payload.model == model && builds[1].payload.model == other
  {
    var s;
    run, s := QueuedBesideWriter(id, model, other, weights);
    run, s := PickAndBuild(SaveKeeps, run, s, [id], id);
    run, s := Extend(SaveKeeps, run, s, SchedulerStep(false));
    run, s := Extend(SaveKeeps, run, s, ThreadStep(2, true));
    assert s.dirs[id] == map[BufferModel.Model := other, BufferModel.Weights := weights];
    run, s := Extend(SaveKeeps, run, s, ThreadStep(2, false));
    run, s := PickAndBuild(SaveKeeps, run, s, [id], id);
    RunsToIs(SaveKeeps, run, s);
  }
}
