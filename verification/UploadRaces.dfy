/** The same protocol without the assumption that uploads are atomic. Request threads take no lock, so
    here every read and write of a single file is its own step, of any number of threads and of the
    scheduler. At most one job is dispatched whatever interleaves; UploadGuards says under which
    conditions the lifecycle, the queue and the payloads are kept too, and UploadCounterRuns shows what
    happens without them. */
module UploadRaces {
  import opened Bytes
  import opened Wrappers
  import BufferModel

  type JobId = BufferModel.JobId
  type Artifact = BufferModel.Artifact
  type Status = BufferModel.Status

  /** The files of a job's directory other than job.json. */
  type Files = map<Artifact, Data>

  /** job.json, as far as the races are concerned. `uid` numbers the incarnations of an id. */
  datatype Record = Record(uid: nat, status: Status, preprocessingCommitted: bool)

  datatype Payload = Payload(model: Data, weights: Data, preprocessing: Option<Data>)

  datatype Delivery = Delivery(uid: nat, payload: Payload)

  /** A request thread between two file operations, with its copy of the record. */
  datatype Thread =
    | Making(id: JobId, record: Record)
    | Creating(id: JobId, record: Record)
    | Writing(id: JobId, artifact: Artifact, data: Data, record: Record)
    | Checking(id: JobId, artifact: Artifact, record: Record)
    | Looking(id: JobId, record: Record, missing: seq<Artifact>)
    | Saving(id: JobId, record: Record)
    | ReadingQueue(id: JobId)
    | WritingQueue(id: JobId, ids: seq<JobId>)

  /** The scheduler between two file operations. */
  datatype Scheduler =
    | Idle
    | Deleting(id: JobId)
    | Completing(id: JobId, record: Record)
    | Scanning(ids: seq<JobId>)
    | OpeningQueue
    | Picking(ids: seq<JobId>)
    | Provisioning(id: JobId, record: Record)
    | ReopeningQueue(id: JobId, record: Record)
    | Rechecking(id: JobId, record: Record, ids: seq<JobId>)
    | ReadingModel(id: JobId, uid: nat)
    | ReadingWeights(id: JobId, uid: nat, model: Data)
    | ReadingPreprocessing(id: JobId, uid: nat, model: Data, weights: Data)
    | Sending(id: JobId, delivery: Delivery)
    | Loading(id: JobId)
    | Marking(id: JobId, record: Record)
    | ReadingForRemoval(id: JobId)
    | Removing(id: JobId, ids: seq<JobId>)

  /** What happened so far; nothing in the machine reads it. `births` holds the incarnations whose
      record was ever written. */
  datatype History = History(
    births: set<nat>,
    enqueued: seq<JobId>,
    removed: seq<JobId>,
    builds: seq<Delivery>,
    sends: seq<Delivery>)

  datatype State = State(
    records: map<JobId, Record>,
    dirs: map<JobId, Files>,
    queue: seq<JobId>,
    threads: map<nat, Thread>,
    scheduler: Scheduler,
    nextUid: nat,
    log: History)

  const INIT := State(map[], map[], [], map[], Idle, 0, History({}, [], [], [], []))

  datatype Label =
    | StartCreate(t: nat, id: JobId, preprocessingCommitted: bool)
    | StartUpload(t: nat, id: JobId, artifact: Artifact, data: Data)
    | ThreadStep(t: nat, hashOk: bool)
    | ConsiderDelete(id: JobId)
    | ConsiderComplete(id: JobId)
    | BeginScan(listing: seq<JobId>)
    | SchedulerStep(ok: bool)
    | GiveUp
    | Restart

  predicate HasStatus(s: State, id: JobId, status: Status) {
    id in s.records && s.records[id].status == status
  }

  function Apply(s: State, l: Label): State {
    match l
    case StartCreate(t, id, committed) =>
      if t in s.threads || id in s.dirs then s
      else s.(threads := s.threads[t := Making(id, Record(s.nextUid, BufferModel.PendingUpload, committed))],
              nextUid := s.nextUid + 1)
    case StartUpload(t, id, artifact, data) =>
      if t in s.threads || !HasStatus(s, id, BufferModel.PendingUpload) then s
      else s.(threads := s.threads[t := Writing(id, artifact, data, s.records[id])])
    case ThreadStep(t, hashOk) => if t in s.threads then Step(s, t, s.threads[t], hashOk) else s
    case ConsiderDelete(id) =>
      if s.scheduler.Idle? && HasStatus(s, id, BufferModel.Complete) then s.(scheduler := Deleting(id)) else s
    case ConsiderComplete(id) =>
      if s.scheduler.Idle? && HasStatus(s, id, BufferModel.Dispatched) then
        s.(scheduler := Completing(id, s.records[id]))
      else s
    case BeginScan(listing) =>
      if s.scheduler.Idle? && s.records.Keys <= (set id | id in listing) then s.(scheduler := Scanning(listing)) else s
    case SchedulerStep(ok) => Schedule(s, s.scheduler, ok)
    case GiveUp => if s.scheduler.Provisioning? then s.(scheduler := Idle) else s
    case Restart => s.(threads := map[], scheduler := Idle)
  }

  // ---------------------------------------------------------------- request threads

  function FilesIn(s: State, id: JobId): Files {
    if id in s.dirs then s.dirs[id] else map[]
  }

  /** Writes job.json, in a new directory if there is none. */
  function SaveRecord(s: State, id: JobId, record: Record): State {
    s.(records := s.records[id := record], dirs := s.dirs[id := FilesIn(s, id)])
  }

  function Required(record: Record): seq<Artifact> {
    [BufferModel.Model, BufferModel.Weights]
    + if record.preprocessingCommitted then [BufferModel.Preprocessing] else []
  }

  function Step(s: State, t: nat, thread: Thread, hashOk: bool): State {
    match thread
    case Making(id, record) =>
      s.(dirs := s.dirs[id := FilesIn(s, id)], threads := s.threads[t := Creating(id, record)])
    case Creating(id, record) =>
      SaveRecord(s, id, record).(threads := s.threads - {t}, log := s.log.(births := s.log.births + {record.uid}))
    case Writing(id, artifact, data, record) =>
      s.(dirs := s.dirs[id := FilesIn(s, id)[artifact := data]],
         threads := s.threads[t := Checking(id, artifact, record)])
    case Checking(id, artifact, record) =>
      s.(threads := if hashOk then s.threads[t := Looking(id, record, Required(record))] else s.threads - {t})
    case Looking(id, record, missing) =>
      s.(threads := s.threads[t :=
        if missing == [] then Saving(id, record.(status := BufferModel.Queued))
        else if missing[0] in FilesIn(s, id) then Looking(id, record, missing[1..])
        else Saving(id, record)])
    case Saving(id, record) =>
      SaveRecord(s, id, record)
        .(threads := if record.status.Queued? then s.threads[t := ReadingQueue(id)] else s.threads - {t})
    case ReadingQueue(id) => s.(threads := s.threads[t := WritingQueue(id, s.queue)])
    case WritingQueue(id, ids) =>
      s.(queue := ids + [id], threads := s.threads - {t}, log := s.log.(enqueued := s.log.enqueued + [id]))
  }

  // ---------------------------------------------------------------- the scheduler

  /** The scheduler's next step writes or deletes a record. */
  predicate Writes(pc: Scheduler, ok: bool) {
    pc.Deleting? || pc.Completing? || (pc.Provisioning? && !ok) || pc.Marking?
  }

  /** The scheduler's next file operation: it writes a record, or the queue, or reads something. */
  function Schedule(s: State, pc: Scheduler, ok: bool): State {
    if Writes(pc, ok) then WriteRecord(s, pc)
    else if pc.Removing? then
      s.(queue := BufferModel.Without(pc.ids, pc.id), scheduler := Idle,
         log := s.log.(removed := s.log.removed + [pc.id]))
    else s.(scheduler := AfterRead(s, pc, ok), log := LogRead(s, pc, ok))
  }

  function WriteRecord(s: State, pc: Scheduler): State {
    match pc
    case Deleting(id) => s.(records := s.records - {id}, dirs := s.dirs - {id}, scheduler := Idle)
    case Completing(id, record) => SaveRecord(s, id, record.(status := BufferModel.Complete)).(scheduler := Idle)
    case Provisioning(id, record) => SaveRecord(s, id, record)
    case Marking(id, record) =>
      SaveRecord(s, id, record.(status := BufferModel.Dispatched)).(scheduler := ReadingForRemoval(id))
    case _ => s
  }

  /** Where a read leads; a send ends the reading of a payload. */
  function AfterRead(s: State, pc: Scheduler, ok: bool): Scheduler {
    match pc
    case Scanning(ids) =>
      if ids == [] then OpeningQueue
      else if HasStatus(s, ids[0], BufferModel.Dispatched) then Idle
      else Scanning(ids[1..])
    case OpeningQueue => Picking(s.queue)
    case Picking(ids) =>
      if ids == [] then Idle
      else if HasStatus(s, ids[0], BufferModel.Queued) then Provisioning(ids[0], s.records[ids[0]])
      else Picking(ids[1..])
    case Provisioning(id, record) => ReopeningQueue(id, record)
    case ReopeningQueue(id, record) => Rechecking(id, record, s.queue)
    case Rechecking(id, record, ids) =>
      if ids == [] then Idle
      else if HasStatus(s, ids[0], BufferModel.Queued) then
        if ids[0] == id then ReadingModel(id, s.records[id].uid) else Idle
      else Rechecking(id, record, ids[1..])
    case ReadingModel(id, uid) =>
      var files := FilesIn(s, id);
      if BufferModel.Model in files then ReadingWeights(id, uid, files[BufferModel.Model]) else Idle
    case ReadingWeights(id, uid, model) =>
      var files := FilesIn(s, id);
      if BufferModel.Weights in files then ReadingPreprocessing(id, uid, model, files[BufferModel.Weights]) else Idle
    case ReadingPreprocessing(id, _, _, _) => Sending(id, Built(s, pc))
    case Sending(id, delivery) => if ok then Loading(id) else Idle
    case Loading(id) => if id in s.records then Marking(id, s.records[id]) else Idle
    case ReadingForRemoval(id) => Removing(id, s.queue)
    case _ => Idle
  }

  /** The payload, once the last file has been read; preprocessing is part of it if it is there. */
  function Built(s: State, pc: Scheduler): Delivery
    requires pc.ReadingPreprocessing?
  {
    var files := FilesIn(s, pc.id);
    var script := if BufferModel.Preprocessing in files then Some(files[BufferModel.Preprocessing]) else None;
    Delivery(pc.uid, Payload(pc.model, pc.weights, script))
  }

  function LogRead(s: State, pc: Scheduler, ok: bool): History {
    if pc.ReadingPreprocessing? then s.log.(builds := s.log.builds + [Built(s, pc)])
    else if pc.Sending? && ok then s.log.(sends := s.log.sends + [pc.delivery])
    else s.log
  }

  function Exec(steps: seq<Label>): State {
    if steps == [] then INIT else Apply(Exec(steps[..|steps| - 1]), steps[|steps| - 1])
  }

  // ---------------------------------------------------------------- at most one job dispatched

  /** A thread that will still save its copy of a record. */
  predicate HasRecord(thread: Thread) {
    !thread.ReadingQueue? && !thread.WritingQueue?
  }

  /** Request threads never hold a copy that says dispatched. */
  ghost predicate ThreadsHarmless(s: State) {
    forall t <- s.threads :: HasRecord(s.threads[t]) ==> !s.threads[t].record.status.Dispatched?
  }

  ghost predicate NoneDispatched(s: State) {
    forall id <- s.records :: !s.records[id].status.Dispatched?
  }

  ghost predicate OneDispatched(s: State) {
    forall a, b ::
      a in s.records && b in s.records && s.records[a].status.Dispatched? && s.records[b].status.Dispatched? ==> a == b
  }

  /** From the end of the scan until the mark no job is dispatched: only the scheduler could make one so. */
  ghost predicate SchedulerKnows(s: State) {
    match s.scheduler
    case Idle => true
    case Deleting(_) => true
    case Completing(_, _) => true
    case Scanning(ids) => forall id <- s.records :: s.records[id].status.Dispatched? ==> id in ids
    case Provisioning(_, record) => NoneDispatched(s) && !record.status.Dispatched?
    case ReadingForRemoval(_) => true
    case Removing(_, _) => true
    case _ => NoneDispatched(s)
  }

  ghost predicate Kept(s: State) {
    ThreadsHarmless(s) && OneDispatched(s) && SchedulerKnows(s)
  }

  lemma ThreadKeeps(s: State, t: nat, hashOk: bool)
    requires Kept(s) && t in s.threads
    ensures Kept(Step(s, t, s.threads[t], hashOk))
  {
    ThreadsStayHarmless(s, t, hashOk);
    ThreadDispatchesNone(s, t, hashOk);
    FewerDispatched(s, Step(s, t, s.threads[t], hashOk));
  }

  lemma ThreadsStayHarmless(s: State, t: nat, hashOk: bool)
    requires ThreadsHarmless(s) && t in s.threads
    ensures ThreadsHarmless(Step(s, t, s.threads[t], hashOk))
  {
  }

  lemma ThreadDispatchesNone(s: State, t: nat, hashOk: bool)
    requires ThreadsHarmless(s) && t in s.threads
    ensures
      var s' := Step(s, t, s.threads[t], hashOk);
      s'.scheduler == s.scheduler
      && forall id <- s'.records :: s'.records[id].status.Dispatched? ==> HasStatus(s, id, BufferModel.Dispatched)
  {
  }

  lemma FewerDispatched(s: State, s': State)
    requires OneDispatched(s) && SchedulerKnows(s) && s'.scheduler == s.scheduler
    requires forall id <- s'.records :: s'.records[id].status.Dispatched? ==> HasStatus(s, id, BufferModel.Dispatched)
    ensures OneDispatched(s') && SchedulerKnows(s')
  {
  }

  lemma SchedulerKeeps(s: State, ok: bool)
    requires Kept(s)
    ensures Kept(Schedule(s, s.scheduler, ok))
  {
    if Writes(s.scheduler, ok) {
      WriteKeeps(s, ok);
    } else {
      ReadKeeps(s, ok);
    }
  }

  lemma WriteKeeps(s: State, ok: bool)
    requires Kept(s) && Writes(s.scheduler, ok)
    ensures Kept(Schedule(s, s.scheduler, ok))
  {
  }

  lemma ReadKeeps(s: State, ok: bool)
    requires Kept(s) && !Writes(s.scheduler, ok)
    ensures Kept(Schedule(s, s.scheduler, ok))
  {
    ReadChangesNothing(s, ok);
    ReadKeepsKnowledge(s, ok);
  }

  lemma ReadChangesNothing(s: State, ok: bool)
    requires !Writes(s.scheduler, ok)
    ensures
      var s' := Schedule(s, s.scheduler, ok);
      s'.records == s.records && s'.threads == s.threads && s'.dirs == s.dirs && s'.nextUid == s.nextUid
  {
  }

  lemma ReadKeepsKnowledge(s: State, ok: bool)
    requires SchedulerKnows(s) && !Writes(s.scheduler, ok)
    ensures SchedulerKnows(Schedule(s, s.scheduler, ok))
  {
  }

  lemma {:induction false} KeptAlways(steps: seq<Label>)
    ensures Kept(Exec(steps))
  {
    if steps != [] {
      var s, l := Exec(steps[..|steps| - 1]), steps[|steps| - 1];
      KeptAlways(steps[..|steps| - 1]);
      match l
      case ThreadStep(t, hashOk) =>
        if t in s.threads {
          ThreadKeeps(s, t, hashOk);
        }
      case SchedulerStep(ok) => SchedulerKeeps(s, ok);
      case _ =>
    }
  }

  /** Whatever single file operations and restarts interleave, at most one job is dispatched. */
  lemma SingleDispatchWithoutAtomicity(steps: seq<Label>, a: JobId, b: JobId)
    requires HasStatus(Exec(steps), a, BufferModel.Dispatched) && HasStatus(Exec(steps), b, BufferModel.Dispatched)
    ensures a == b
  {
    KeptAlways(steps);
  }
}
