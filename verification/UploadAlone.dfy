/** Uninterrupted, the single file operations of UploadRaces are the steps of BufferModel: an upload, a
    create, a cleanup, a finalization or a dispatch that nothing interleaves with has the same effect on
    records, files and queue as the step that stands for it there. */
module UploadAlone {
  import BufferModel
  import opened Bytes
  import opened UploadRaces
  import opened Wrappers

  /** The files on disk are the same in both machines; of a record the races know less. */
  ghost predicate Mirrors(s: State, b: BufferModel.State) {
    && s.records.Keys == s.dirs.Keys == b.dirs.Keys
    && (forall id <- b.dirs :: s.dirs[id] == b.dirs[id].files && RecordMirrors(s.records[id], b.dirs[id].record))
    && s.queue == b.queue && s.nextUid == b.nextUid
  }

  ghost predicate RecordMirrors(r: Record, job: BufferModel.Job) {
    r.uid == job.uid && r.status == job.status && (r.preprocessingCommitted <==> job.commitments.preprocessing != "")
  }

  /** Nothing but the disk has changed. */
  ghost predicate SameOthers(s: State, s': State) {
    s'.threads == s.threads && s'.scheduler == s.scheduler
  }

  // ---------------------------------------------------------------- request threads

  /** A thread's file operations in a row, until it is done or n are made. */
  function Turns(s: State, t: nat, hashOk: bool, n: nat): State
    decreases n
  {
    if n == 0 || t !in s.threads then s else Turns(Step(s, t, s.threads[t], hashOk), t, hashOk, n - 1)
  }

  lemma TurnsOn(s: State, t: nat, hashOk: bool, n: nat, thread: Thread)
    requires n > 0 && t in s.threads && s.threads[t] == thread
    ensures Turns(s, t, hashOk, n) == Turns(Step(s, t, thread, hashOk), t, hashOk, n - 1)
  {
  }

  lemma TurnsEnd(s: State, t: nat, hashOk: bool, n: nat)
    requires t !in s.threads
    ensures Turns(s, t, hashOk, n) == s
  {
  }

  /** Replacing and then dropping a thread drops it. */
  lemma Dropped(threads: map<nat, Thread>, t: nat, thread: Thread)
    ensures threads[t := thread] - {t} == threads - {t}
    ensures t !in threads ==> threads - {t} == threads
  {
  }

  /** A create takes two operations, the directory and the record. */
  lemma CreateAlone(s: State, b: BufferModel.State, t: nat, request: BufferModel.CreateRequest)
    requires Mirrors(s, b) && t !in s.threads && BufferModel.ValidDataset(request.datasetId)
    ensures
      var s' := Turns(Apply(s, StartCreate(t, request.jobId, request.commitments.preprocessing != "")), t, true, 2);
      Mirrors(s', BufferModel.CreateJobRecord(b, request)) && SameOthers(s, s')
  {
    var (id, committed) := (request.jobId, request.commitments.preprocessing != "");
    var s0 := Apply(s, StartCreate(t, id, committed));
    if id in s.dirs {
      TurnsEnd(s0, t, true, 2);
    } else {
      var record := Record(s.nextUid, BufferModel.PendingUpload, committed);
      TurnsOn(s0, t, true, 2, Making(id, record));
      var s1 := Step(s0, t, Making(id, record), true);
      TurnsOn(s1, t, true, 1, Creating(id, record));
      var s2 := Step(s1, t, Creating(id, record), true);
      Dropped(s0.threads, t, Creating(id, record));
      Dropped(s.threads, t, Making(id, record));
      CreatedMirrors(s, s2, b, request);
    }
  }

  /** A directory that is there refuses a create, with or without a record in it. */
  lemma CreateRefused(s: State, t: nat, id: JobId, preprocessingCommitted: bool)
    requires id in s.dirs
    ensures Apply(s, StartCreate(t, id, preprocessingCommitted)) == s
  {
  }

  lemma CreatedMirrors(s: State, s': State, b: BufferModel.State, request: BufferModel.CreateRequest)
    requires Mirrors(s, b) && request.jobId !in s.dirs && BufferModel.ValidDataset(request.datasetId)
    requires s'.queue == s.queue && s'.nextUid == s.nextUid + 1 && s'.dirs == s.dirs[request.jobId := map[]]
    requires
      var record := Record(s.nextUid, BufferModel.PendingUpload, request.commitments.preprocessing != "");
      s'.records == s.records[request.jobId := record]
    ensures Mirrors(s', BufferModel.CreateJobRecord(b, request))
  {
  }

  /** What a thread's save leaves: the record, and behind it the queue with the id appended if the record
      says queued. */
  function Saved(s: State, t: nat, id: JobId, record: Record): State {
    var s1 := SaveRecord(s, id, record).(threads := s.threads - {t});
    if record.status.Queued? then
      s1.(queue := s.queue + [id], log := s.log.(enqueued := s.log.enqueued + [id]))
    else s1
  }

  lemma SavingAlone(s: State, t: nat, id: JobId, record: Record, n: nat)
    requires t in s.threads && s.threads[t] == Saving(id, record) && n >= 3
    ensures Turns(s, t, true, n) == Saved(s, t, id, record)
  {
    TurnsOn(s, t, true, n, Saving(id, record));
    var s1 := Step(s, t, Saving(id, record), true);
    if record.status.Queued? {
      TurnsOn(s1, t, true, n - 1, ReadingQueue(id));
      var s2 := Step(s1, t, ReadingQueue(id), true);
      TurnsOn(s2, t, true, n - 2, WritingQueue(id, s.queue));
      var s3 := Step(s2, t, WritingQueue(id, s.queue), true);
      Dropped(s1.threads, t, WritingQueue(id, s.queue));
      Dropped(s.threads, t, ReadingQueue(id));
      TurnsEnd(s3, t, true, n - 3);
    } else {
      TurnsEnd(s1, t, true, n - 1);
    }
  }

  lemma SavedOver(s: State, t: nat, id: JobId, thread: Thread, record: Record)
    ensures Saved(s.(threads := s.threads[t := thread]), t, id, record) == Saved(s, t, id, record)
  {
    Dropped(s.threads, t, thread);
  }

  /** Looking for the artifacts ends with the first that is missing, or with all of them found. */
  lemma {:induction false} LookingAlone(
    s: State, t: nat, id: JobId, record: Record, missing: seq<Artifact>, n: nat)
    requires t in s.threads && s.threads[t] == Looking(id, record, missing) && n >= |missing| + 4
    ensures
      var found := forall a <- missing :: a in FilesIn(s, id);
      Turns(s, t, true, n) == Saved(s, t, id, if found then record.(status := BufferModel.Queued) else record)
    decreases |missing|
  {
    TurnsOn(s, t, true, n, Looking(id, record, missing));
    if missing != [] && missing[0] in FilesIn(s, id) {
      var thread := Looking(id, record, missing[1..]);
      LookingAlone(s.(threads := s.threads[t := thread]), t, id, record, missing[1..], n - 1);
      assert missing == [missing[0]] + missing[1..];
      var found := forall a <- missing :: a in FilesIn(s, id);
      SavedOver(s, t, id, thread, if found then record.(status := BufferModel.Queued) else record);
    } else {
      var record' := if missing == [] then record.(status := BufferModel.Queued) else record;
      SavingAlone(s.(threads := s.threads[t := Saving(id, record')]), t, id, record', n - 1);
      SavedOver(s, t, id, Saving(id, record'), record');
    }
  }

  /** The artifacts a record waits for are all there. */
  predicate Complete(files: Files, preprocessingCommitted: bool) {
    && BufferModel.Model in files && BufferModel.Weights in files
    && (preprocessingCommitted ==> BufferModel.Preprocessing in files)
  }

  /** The disk after the file is written. */
  function Written(s: State, id: JobId, a: Artifact, data: Data): State {
    s.(dirs := s.dirs[id := FilesIn(s, id)[a := data]])
  }

  /** What an upload that nothing interleaves with leaves: the file, and if its hash is accepted the
      record, queued if the required artifacts are there. */
  function Uploaded(s: State, t: nat, id: JobId, a: Artifact, data: Data, hashOk: bool): State
    requires id in s.records
  {
    var s1 := Written(s, id, a, data);
    var (files, record) := (s1.dirs[id], s.records[id]);
    if !hashOk then s1
    else if Complete(files, record.preprocessingCommitted) then
      Saved(s1, t, id, record.(status := BufferModel.Queued))
    else Saved(s1, t, id, record)
  }

  /** The first two operations write the file and look at its hash. */
  lemma UploadWrites(s: State, t: nat, id: JobId, a: Artifact, data: Data, hashOk: bool)
    requires t !in s.threads && HasStatus(s, id, BufferModel.PendingUpload)
    ensures
      var looking := Looking(id, s.records[id], Required(s.records[id]));
      Turns(Apply(s, StartUpload(t, id, a, data)), t, hashOk, 9)
      == Turns(Written(s, id, a, data).(threads := if hashOk then s.threads[t := looking] else s.threads), t, hashOk, 7)
  {
    var record := s.records[id];
    var s0 := Apply(s, StartUpload(t, id, a, data));
    TurnsOn(s0, t, hashOk, 9, Writing(id, a, data, record));
    var s1 := Step(s0, t, Writing(id, a, data, record), hashOk);
    TurnsOn(s1, t, hashOk, 8, Checking(id, a, record));
    var s2 := Step(s1, t, Checking(id, a, record), hashOk);
    var looking := Looking(id, record, Required(record));
    assert hashOk ==> s2.threads == s.threads[t := looking];
    assert !hashOk ==> s2.threads == s.threads;
  }

  lemma UploadTurns(s: State, t: nat, id: JobId, a: Artifact, data: Data, hashOk: bool)
    requires t !in s.threads && HasStatus(s, id, BufferModel.PendingUpload)
    ensures Turns(Apply(s, StartUpload(t, id, a, data)), t, hashOk, 9) == Uploaded(s, t, id, a, data, hashOk)
  {
    UploadWrites(s, t, id, a, data, hashOk);
    if hashOk {
      var looking := Looking(id, s.records[id], Required(s.records[id]));
      var s2 := Written(s, id, a, data).(threads := s.threads[t := looking]);
      LookingAlone(s2, t, id, s.records[id], Required(s.records[id]), 7);
      UploadSaves(s, s2, t, id, a, data);
    } else {
      TurnsEnd(Written(s, id, a, data), t, hashOk, 7);
    }
  }

  lemma UploadSaves(s: State, s2: State, t: nat, id: JobId, a: Artifact, data: Data)
    requires t !in s.threads && id in s.records
    requires t in s2.threads && s2 == Written(s, id, a, data).(threads := s.threads[t := s2.threads[t]])
    ensures
      var record := s.records[id];
      var found := forall m <- Required(record) :: m in FilesIn(s2, id);
      Saved(s2, t, id, if found then record.(status := BufferModel.Queued) else record)
      == Uploaded(s, t, id, a, data, true)
  {
    Dropped(s.threads, t, s2.threads[t]);
    var required := Required(s.records[id]);
    assert required[0] == BufferModel.Model && required[1] == BufferModel.Weights;
    assert s.records[id].preprocessingCommitted ==> required[2] == BufferModel.Preprocessing;
  }

  /** An upload that nothing interleaves with is the upload step, whatever comes of its hash check. */
  lemma UploadAlone(
    cfg: BufferModel.Config, s: State, b: BufferModel.State, t: nat, id: JobId, a: Artifact, data: Data)
    requires Mirrors(s, b) && t !in s.threads && HasStatus(s, id, BufferModel.PendingUpload)
    ensures
      var hashOk := BufferModel.Accepts(cfg, b.dirs[id].record.commitments, a, data);
      var s' := Turns(Apply(s, StartUpload(t, id, a, data)), t, hashOk, 9);
      Mirrors(s', BufferModel.ReceiveArtifact(cfg, b, id, Some(a), data)) && SameOthers(s, s')
  {
    var hashOk := BufferModel.Accepts(cfg, b.dirs[id].record.commitments, a, data);
    UploadTurns(s, t, id, a, data, hashOk);
    Dropped(s.threads, t, Saving(id, s.records[id]));
    UploadedMirrors(cfg, s, b, t, id, a, data, hashOk);
  }

  lemma UploadedMirrors(
    cfg: BufferModel.Config, s: State, b: BufferModel.State, t: nat, id: JobId, a: Artifact, data: Data,
    hashOk: bool)
    requires Mirrors(s, b) && HasStatus(s, id, BufferModel.PendingUpload)
    requires hashOk == BufferModel.Accepts(cfg, b.dirs[id].record.commitments, a, data)
    ensures
      Mirrors(Uploaded(s, t, id, a, data, hashOk), BufferModel.ReceiveArtifact(cfg, b, id, Some(a), data))
  {
    UploadedIs(s, t, id, a, data, hashOk);
    ReceivedIs(cfg, b, id, a, data);
    var b' := BufferModel.ReceiveArtifact(cfg, b, id, Some(a), data);
    ChangedMirrors(s, Uploaded(s, t, id, a, data, hashOk), b, b', id);
  }

  lemma UploadedIs(s: State, t: nat, id: JobId, a: Artifact, data: Data, hashOk: bool)
    requires HasStatus(s, id, BufferModel.PendingUpload)
    ensures
      var s' := Uploaded(s, t, id, a, data, hashOk);
      var record := s.records[id];
      var queued := hashOk && Complete(s'.dirs[id], record.preprocessingCommitted);
      && s'.dirs == s.dirs[id := FilesIn(s, id)[a := data]]
      && s'.records == s.records[id := if queued then record.(status := BufferModel.Queued) else record]
      && s'.queue == (if queued then s.queue + [id] else s.queue) && s'.nextUid == s.nextUid
  {
  }

  lemma ReceivedIs(cfg: BufferModel.Config, b: BufferModel.State, id: JobId, a: Artifact, data: Data)
    requires BufferModel.HasStatus(b, id, BufferModel.PendingUpload)
    ensures
      var b' := BufferModel.ReceiveArtifact(cfg, b, id, Some(a), data);
      && id in b'.dirs && b'.dirs == b.dirs[id := b'.dirs[id]] && b'.dirs[id].files == b.dirs[id].files[a := data]
      && var (job, job') := (b.dirs[id].record, b'.dirs[id].record);
      var queued := BufferModel.Accepts(cfg, job.commitments, a, data)
        && Complete(b'.dirs[id].files, job.commitments.preprocessing != "");
      && job'.uid == job.uid && job'.commitments == job.commitments
      && job'.status == (if queued then BufferModel.Queued else BufferModel.PendingUpload)
      && b'.queue == (if queued then b.queue + [id] else b.queue) && b'.nextUid == b.nextUid
  {
  }

  /** Mirroring survives the same change of one job on both sides. */
  lemma ChangedMirrors(s: State, s': State, b: BufferModel.State, b': BufferModel.State, id: JobId)
    requires Mirrors(s, b) && id in s.dirs && id in s'.dirs && id in s'.records && id in b'.dirs
    requires s'.dirs == s.dirs[id := s'.dirs[id]] && s'.records == s.records[id := s'.records[id]]
    requires b'.dirs == b.dirs[id := b'.dirs[id]]
    requires s'.dirs[id] == b'.dirs[id].files && RecordMirrors(s'.records[id], b'.dirs[id].record)
    requires s'.queue == b'.queue && s'.nextUid == b'.nextUid
    ensures Mirrors(s', b')
  {
  }

  // ---------------------------------------------------------------- the scheduler

  /** File operations of the scheduler in a row. */
  function Runs(s: State, n: nat): State
    decreases n
  {
    if n == 0 then s else Runs(Schedule(s, s.scheduler, true), n - 1)
  }

  lemma RunsOn(s: State, n: nat, pc: Scheduler)
    requires n > 0 && s.scheduler == pc
    ensures Runs(s, n) == Runs(Schedule(s, pc, true), n - 1)
  {
  }

  /** A finalization that nothing interleaves with is the step that completes the job. */
  lemma CompleteAlone(s: State, b: BufferModel.State, id: JobId, now: int)
    requires Mirrors(s, b) && s.scheduler.Idle? && HasStatus(s, id, BufferModel.Dispatched)
    requires b.dirs[id].record.id == id
    ensures
      var s' := Runs(Apply(s, ConsiderComplete(id)), 1);
      Mirrors(s', BufferModel.CompleteJob(b, id, now)) && SameOthers(s, s')
  {
    var s0 := Apply(s, ConsiderComplete(id));
    RunsOn(s0, 1, Completing(id, s.records[id]));
    var s' := Schedule(s0, s0.scheduler, true);
    assert Runs(s', 0) == s';
    ChangedMirrors(s, s', b, BufferModel.CompleteJob(b, id, now), id);
  }

  /** A deletion that nothing interleaves with removes the directory and nothing else. */
  lemma DeleteAlone(s: State, b: BufferModel.State, id: JobId)
    requires Mirrors(s, b) && s.scheduler.Idle? && HasStatus(s, id, BufferModel.Complete)
    ensures
      var s' := Runs(Apply(s, ConsiderDelete(id)), 1);
      Mirrors(s', BufferModel.DeleteJob(b, id)) && SameOthers(s, s')
  {
    var s0 := Apply(s, ConsiderDelete(id));
    RunsOn(s0, 1, Deleting(id));
    var s' := Schedule(s0, s0.scheduler, true);
    assert Runs(s', 0) == s';
  }

  /** The scan for a dispatched job reads every record of the listing and goes on to the queue exactly
      if it finds none. */
  lemma {:induction false} ScanAlone(s: State, ids: seq<JobId>)
    requires s.scheduler == Scanning(ids) && forall id <- ids :: !HasStatus(s, id, BufferModel.Dispatched)
    ensures Runs(s, |ids| + 2) == s.(scheduler := Picking(s.queue))
    decreases |ids|
  {
    RunsOn(s, |ids| + 2, Scanning(ids));
    if ids == [] {
      var s1 := s.(scheduler := OpeningQueue);
      RunsOn(s1, 1, OpeningQueue);
      assert Runs(s.(scheduler := Picking(s.queue)), 0) == s.(scheduler := Picking(s.queue));
    } else {
      assert forall id <- ids[1..] :: id in ids;
      ScanAlone(s.(scheduler := Scanning(ids[1..])), ids[1..]);
    }
  }

  lemma {:induction false} ScanStops(s: State, ids: seq<JobId>, k: nat)
    requires s.scheduler == Scanning(ids) && k < |ids| && HasStatus(s, ids[k], BufferModel.Dispatched)
    requires forall j :: 0 <= j < k ==> !HasStatus(s, ids[j], BufferModel.Dispatched)
    ensures Runs(s, k + 1) == s.(scheduler := Idle)
    decreases k
  {
    RunsOn(s, k + 1, Scanning(ids));
    if k == 0 {
      assert Runs(s.(scheduler := Idle), 0) == s.(scheduler := Idle);
    } else {
      ScanStops(s.(scheduler := Scanning(ids[1..])), ids[1..], k - 1);
    }
  }

  /** ids[k] is the first of these ids whose record says queued, or there is none and k is the end. */
  ghost predicate FirstQueued(s: State, ids: seq<JobId>, k: nat) {
    && k <= |ids| && (forall j :: 0 <= j < k ==> !HasStatus(s, ids[j], BufferModel.Queued))
    && (k < |ids| ==> HasStatus(s, ids[k], BufferModel.Queued))
  }

  lemma FirstQueuedRest(s: State, s': State, ids: seq<JobId>, k: nat)
    requires FirstQueued(s, ids, k) && k > 0 && s'.records == s.records
    ensures FirstQueued(s', ids[1..], k - 1)
  {
  }

  /** The pick takes the first id of the queue whose record says queued, with that record, and gives up if
      there is none. */
  lemma {:induction false} PickAlone(s: State, ids: seq<JobId>, k: nat)
    requires s.scheduler == Picking(ids) && FirstQueued(s, ids, k)
    ensures
      Runs(s, k + 1)
      == s.(scheduler := if k < |ids| then Provisioning(ids[k], s.records[ids[k]]) else Idle)
    decreases k
  {
    RunsOn(s, k + 1, Picking(ids));
    if k == 0 {
      var picked := s.(scheduler := if ids != [] then Provisioning(ids[0], s.records[ids[0]]) else Idle);
      assert Runs(picked, 0) == picked;
    } else {
      var next := s.(scheduler := Picking(ids[1..]));
      FirstQueuedRest(s, next, ids, k);
      PickAlone(next, ids[1..], k - 1);
    }
  }

  /** The recheck goes on to read the files exactly if that id is still the picked one. */
  lemma {:induction false} RecheckScans(s: State, id: JobId, record: Record, ids: seq<JobId>, k: nat)
    requires s.scheduler == Rechecking(id, record, ids) && FirstQueued(s, ids, k)
    ensures
      Runs(s, k + 1)
      == s.(scheduler := if k < |ids| && ids[k] == id then ReadingModel(id, s.records[id].uid) else Idle)
    decreases k
  {
    RunsOn(s, k + 1, Rechecking(id, record, ids));
    if k == 0 {
      var pc := if ids != [] && ids[0] == id then ReadingModel(id, s.records[id].uid) else Idle;
      assert Runs(s.(scheduler := pc), 0) == s.(scheduler := pc);
    } else {
      var next := s.(scheduler := Rechecking(id, record, ids[1..]));
      FirstQueuedRest(s, next, ids, k);
      RecheckScans(next, id, record, ids[1..], k - 1);
    }
  }

  /** A send that fails marks nothing and logs nothing. */
  lemma FailedSendGivesUp(s: State, id: JobId, delivery: Delivery)
    requires s.scheduler == Sending(id, delivery)
    ensures Apply(s, SchedulerStep(false)) == s.(scheduler := Idle)
  {
  }

  /** The payload that a job's files make. */
  function PayloadOf(files: Files): Payload
    requires BufferModel.Model in files && BufferModel.Weights in files
  {
    Payload(
      files[BufferModel.Model], files[BufferModel.Weights],
      if BufferModel.Preprocessing in files then Some(files[BufferModel.Preprocessing]) else None)
  }

  /** The recheck rereads the queue and finds the picked job at its head. */
  lemma RecheckAlone(s: State, id: JobId, record: Record, n: nat)
    requires s.scheduler == ReopeningQueue(id, record) && HasStatus(s, id, BufferModel.Queued)
    requires s.queue != [] && s.queue[0] == id && n >= 2
    ensures Runs(s, n) == Runs(s.(scheduler := ReadingModel(id, s.records[id].uid)), n - 2)
  {
    RunsOn(s, n, ReopeningQueue(id, record));
    RunsOn(s.(scheduler := Rechecking(id, record, s.queue)), n - 1, Rechecking(id, record, s.queue));
  }

  lemma LastReadAlone(s: State, id: JobId, uid: nat, n: nat)
    requires id in s.dirs && BufferModel.Model in s.dirs[id] && BufferModel.Weights in s.dirs[id] && n >= 1
    requires
      s.scheduler
      == ReadingPreprocessing(id, uid, s.dirs[id][BufferModel.Model], s.dirs[id][BufferModel.Weights])
    ensures
      var delivery := Delivery(uid, PayloadOf(s.dirs[id]));
      Runs(s, n)
      == Runs(s.(scheduler := Sending(id, delivery), log := s.log.(builds := s.log.builds + [delivery])), n - 1)
  {
    RunsOn(s, n, s.scheduler);
  }

  /** Three reads make the payload. */
  lemma ReadsAlone(s: State, id: JobId, uid: nat, n: nat)
    requires s.scheduler == ReadingModel(id, uid) && id in s.dirs && n >= 3
    requires BufferModel.Model in s.dirs[id] && BufferModel.Weights in s.dirs[id]
    ensures
      var delivery := Delivery(uid, PayloadOf(s.dirs[id]));
      Runs(s, n)
      == Runs(s.(scheduler := Sending(id, delivery), log := s.log.(builds := s.log.builds + [delivery])), n - 3)
  {
    var (model, weights) := (s.dirs[id][BufferModel.Model], s.dirs[id][BufferModel.Weights]);
    RunsOn(s, n, ReadingModel(id, uid));
    RunsOn(s.(scheduler := ReadingWeights(id, uid, model)), n - 1, ReadingWeights(id, uid, model));
    LastReadAlone(s.(scheduler := ReadingPreprocessing(id, uid, model, weights)), id, uid, n - 2);
  }

  /** After a send that succeeds the record is loaded. */
  lemma SentAlone(s: State, id: JobId, delivery: Delivery, n: nat)
    requires s.scheduler == Sending(id, delivery) && id in s.records && n >= 2
    ensures
      Runs(s, n)
      == Runs(s.(scheduler := Marking(id, s.records[id]), log := s.log.(sends := s.log.sends + [delivery])), n - 2)
  {
    RunsOn(s, n, Sending(id, delivery));
    RunsOn(s.(scheduler := Loading(id), log := s.log.(sends := s.log.sends + [delivery])), n - 1, Loading(id));
  }

  /** And saved as dispatched. */
  lemma MarkAlone(s: State, id: JobId, record: Record, n: nat)
    requires s.scheduler == Marking(id, record) && id in s.dirs && n >= 1
    ensures
      var dispatched := record.(status := BufferModel.Dispatched);
      Runs(s, n)
      == Runs(s.(records := s.records[id := dispatched], scheduler := ReadingForRemoval(id)), n - 1)
  {
    RunsOn(s, n, Marking(id, record));
    assert s.dirs[id := s.dirs[id]] == s.dirs;
  }

  /** And the queue loses the id. */
  lemma RemovalAlone(s: State, id: JobId)
    requires s.scheduler == ReadingForRemoval(id)
    ensures
      Runs(s, 2)
      == s.(queue := BufferModel.Without(s.queue, id), scheduler := Idle,
            log := s.log.(removed := s.log.removed + [id]))
  {
    RunsOn(s, 2, ReadingForRemoval(id));
    var s1 := s.(scheduler := Removing(id, s.queue));
    RunsOn(s1, 1, Removing(id, s.queue));
    var s2 := Schedule(s1, s1.scheduler, true);
    assert Runs(s2, 0) == s2;
  }

  /** The job at the head of the queue has been sent with these files and is marked. */
  ghost predicate SentHead(s: State, s': State, id: JobId)
    requires id in s.records && id in s.dirs && BufferModel.Model in s.dirs[id] && BufferModel.Weights in s.dirs[id]
  {
    && s'.records == s.records[id := s.records[id].(status := BufferModel.Dispatched)]
    && s'.dirs == s.dirs && s'.nextUid == s.nextUid && s'.queue == BufferModel.Without(s.queue, id)
    && s'.scheduler.Idle? && s'.threads == s.threads
    && s'.log.sends == s.log.sends + [Delivery(s.records[id].uid, PayloadOf(s.dirs[id]))]
  }

  /** About to send these files. */
  function Ready(s: State, id: JobId): State
    requires id in s.records && id in s.dirs && BufferModel.Model in s.dirs[id] && BufferModel.Weights in s.dirs[id]
  {
    var delivery := Delivery(s.records[id].uid, PayloadOf(s.dirs[id]));
    s.(scheduler := Sending(id, delivery), log := s.log.(builds := s.log.builds + [delivery]))
  }

  lemma BuildAlone(s: State, id: JobId, record: Record, n: nat)
    requires s.scheduler == ReopeningQueue(id, record) && HasStatus(s, id, BufferModel.Queued) && n >= 5
    requires id in s.dirs && s.queue != [] && s.queue[0] == id
    requires BufferModel.Model in s.dirs[id] && BufferModel.Weights in s.dirs[id]
    ensures Runs(s, n) == Runs(Ready(s, id), n - 5)
  {
    RecheckAlone(s, id, record, n);
    ReadsAlone(s.(scheduler := ReadingModel(id, s.records[id].uid)), id, s.records[id].uid, n - 2);
  }

  lemma DispatchRuns(s: State, id: JobId, record: Record)
    requires s.scheduler == ReopeningQueue(id, record) && HasStatus(s, id, BufferModel.Queued)
    requires id in s.dirs && s.queue != [] && s.queue[0] == id
    requires BufferModel.Model in s.dirs[id] && BufferModel.Weights in s.dirs[id]
    ensures SentHead(s, Runs(s, 10), id)
  {
    BuildAlone(s, id, record, 10);
    var s2 := Ready(s, id);
    SentAlone(s2, id, s2.scheduler.delivery, 5);
    var sends := s.log.sends + [s2.scheduler.delivery];
    var s3 := s2.(scheduler := Marking(id, s.records[id]), log := s2.log.(sends := sends));
    MarkAlone(s3, id, s.records[id], 3);
    RemovalAlone(
      s3.(records := s.records[id := s.records[id].(status := BufferModel.Dispatched)],
          scheduler := ReadingForRemoval(id)), id);
  }

  ghost predicate PayloadMirrors(p: Payload, q: BufferModel.Payload) {
    && p.model == q.model && p.weights == q.weights
    && (match p.preprocessing
        case None => q.preprocessing == None
        case Some(script) => q.preprocessing.Some? && q.preprocessing.value.0 == script)
  }

  /** A recheck, send and mark that nothing interleaves with are the three steps that stand for them: the
      job at the head of the queue is sent with the files it has and is then dispatched. */
  lemma DispatchAlone(
    cfg: BufferModel.Config, s: State, b: BufferModel.State, record: Record, job: BufferModel.Job,
    choice: BufferModel.Choice)
    requires Mirrors(s, b) && s.scheduler == ReopeningQueue(job.id, record)
    requires HasStatus(s, job.id, BufferModel.Queued) && b.dirs[job.id].record.id == job.id
    requires s.queue != [] && s.queue[0] == job.id
    requires BufferModel.Model in s.dirs[job.id] && BufferModel.Weights in s.dirs[job.id]
    ensures
      var (s', built) := (Runs(s, 10), BufferModel.RecheckAndBuild(cfg, b, job, choice));
      && SentHead(s, s', job.id)
      && built.pc.Sending? && PayloadMirrors(PayloadOf(s.dirs[job.id]), built.pc.payload)
      && var sent := BufferModel.RecordSend(built, built.pc.job, built.pc.payload, choice);
      Mirrors(s', BufferModel.MarkJobDispatched(sent, job.id, choice.addr))
  {
    DispatchRuns(s, job.id, record);
    RecheckMirrors(cfg, s, b, job, choice);
    var built := BufferModel.RecheckAndBuild(cfg, b, job, choice);
    var sent := BufferModel.RecordSend(built, built.pc.job, built.pc.payload, choice);
    MarkMirrors(s, Runs(s, 10), sent, job.id, choice.addr);
  }

  lemma RecheckMirrors(
    cfg: BufferModel.Config, s: State, b: BufferModel.State, job: BufferModel.Job, choice: BufferModel.Choice)
    requires Mirrors(s, b) && HasStatus(s, job.id, BufferModel.Queued) && b.dirs[job.id].record.id == job.id
    requires s.queue != [] && s.queue[0] == job.id
    requires BufferModel.Model in s.dirs[job.id] && BufferModel.Weights in s.dirs[job.id]
    ensures
      var built := BufferModel.RecheckAndBuild(cfg, b, job, choice);
      && built.pc.Sending? && PayloadMirrors(PayloadOf(s.dirs[job.id]), built.pc.payload)
      && built.dirs == b.dirs && built.queue == b.queue && built.nextUid == b.nextUid
  {
    assert BufferModel.NextQueued(b) == Some(b.dirs[job.id].record);
  }

  lemma MarkMirrors(s: State, s': State, b: BufferModel.State, id: JobId, addr: string)
    requires Mirrors(s, b) && id in s.dirs && b.dirs[id].record.id == id
    requires s'.records == s.records[id := s.records[id].(status := BufferModel.Dispatched)] && s'.dirs == s.dirs
    requires s'.queue == BufferModel.Without(s.queue, id) && s'.nextUid == s.nextUid
    ensures Mirrors(s', BufferModel.MarkJobDispatched(b, id, addr))
  {
    ChangedMirrors(s, s', b, BufferModel.MarkJobDispatched(b, id, addr), id);
  }
}
