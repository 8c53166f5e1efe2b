/** Artifacts and payloads when uploads are not atomic. */
module UploadPayloads {
  import BufferModel
  import opened Bytes
  import opened UploadGuards
  import opened UploadRaces
  import opened Wrappers

  /** A file is written while the job is still pending, or with the bytes it already has. */
  predicate WriteFresh(s: State, l: Label) {
    Moves(s, l) && s.threads[l.t].Writing? ==>
      var (id, a) := (s.threads[l.t].id, s.threads[l.t].artifact);
      || id !in s.records || s.records[id].status.PendingUpload?
      || (a in FilesIn(s, id) && FilesIn(s, id)[a] == s.threads[l.t].data)
  }

  /** No file of a job past pending_upload changes, short of its deletion. */
  ghost predicate KeepsFiles(s: State, l: Label) {
    var s' := Apply(s, l);
    forall id <- s.records :: !s.records[id].status.PendingUpload? && id in s'.records ==>
      FilesIn(s', id) == FilesIn(s, id)
  }

  lemma FilesFrozenInStepIff(s: State, l: Label)
    ensures KeepsFiles(s, l) <==> WriteFresh(s, l)
  {
    if Moves(s, l) {
      TurnFiles(s, l);
    } else if l.SchedulerStep? {
      ScheduleFiles(s, l.ok);
    } else if !l.ThreadStep? {
      OtherStepsTouchNothing(s, l);
    }
  }

  lemma TurnFiles(s: State, l: Label)
    requires Moves(s, l)
    ensures
      var s' := Apply(s, l);
      var thread := s.threads[l.t];
      && (forall id :: id != thread.id || !thread.Writing? ==> FilesIn(s', id) == FilesIn(s, id))
      && (thread.Writing? ==>
            s'.records == s.records && FilesIn(s', thread.id) == FilesIn(s, thread.id)[thread.artifact := thread.data])
  {
  }

  lemma ScheduleFiles(s: State, ok: bool)
    ensures
      var s' := Schedule(s, s.scheduler, ok);
      forall id <- s'.records :: FilesIn(s', id) == FilesIn(s, id)
  {
    if !Writes(s.scheduler, ok) {
      ReadChangesNothing(s, ok);
    }
  }

  /** Over a whole run no file of a job past pending_upload changes exactly if no write comes late. */
  lemma {:induction false} FilesFrozenIff(steps: seq<Label>)
    ensures Always(KeepsFiles, steps) <==> Always(WriteFresh, steps)
  {
    if steps != [] {
      FilesFrozenIff(steps[..|steps| - 1]);
      FilesFrozenInStepIff(Exec(steps[..|steps| - 1]), steps[|steps| - 1]);
    }
  }

  lemma {:induction false} SerialWritesFresh(steps: seq<Label>)
    requires Always(Serial, steps)
    ensures Always(WriteFresh, steps)
  {
    if steps != [] {
      var s, l := Exec(steps[..|steps| - 1]), steps[|steps| - 1];
      SerialWritesFresh(steps[..|steps| - 1]);
      SerialSavesKeep(steps[..|steps| - 1]);
      if Moves(s, l) {
        assert WorksAlone(s, l.t);
      }
    }
  }

  // ---------------------------------------------------------------- payloads

  ghost predicate Gives(files: Files, payload: Payload) {
    && BufferModel.Model in files && files[BufferModel.Model] == payload.model
    && BufferModel.Weights in files && files[BufferModel.Weights] == payload.weights
    && (match payload.preprocessing
        case None => BufferModel.Preprocessing !in files
        case Some(script) => BufferModel.Preprocessing in files && files[BufferModel.Preprocessing] == script)
  }

  /** A payload built for an incarnation is what its directory still gives. */
  ghost predicate StillGiven(s: State, d: Delivery) {
    && d.uid in s.log.births
    && forall id <- s.records :: s.records[id].uid == d.uid ==>
         !s.records[id].status.PendingUpload? && Gives(FilesIn(s, id), d.payload)
  }

  /** What the scheduler has read so far is on disk. */
  ghost predicate ReadsKept(s: State) {
    match s.scheduler
    case ReadingWeights(id, _, model) =>
      BufferModel.Model in FilesIn(s, id) && FilesIn(s, id)[BufferModel.Model] == model
    case ReadingPreprocessing(id, _, model, weights) =>
      && BufferModel.Model in FilesIn(s, id) && FilesIn(s, id)[BufferModel.Model] == model
      && BufferModel.Weights in FilesIn(s, id) && FilesIn(s, id)[BufferModel.Weights] == weights
    case _ => true
  }

  ghost predicate SamePayloads(builds: seq<Delivery>) {
    forall d <- builds, e <- builds :: d.uid == e.uid ==> d.payload == e.payload
  }

  ghost predicate PayloadsGiven(s: State) {
    && ReadsKept(s)
    && (forall d <- s.log.builds :: StillGiven(s, d))
    && (s.scheduler.Sending? ==> s.scheduler.delivery in s.log.builds)
    && (forall d <- s.log.sends :: d in s.log.builds)
  }

  /** The scheduler has read this file of the job it will send. */
  predicate AlreadyRead(s: State, id: JobId, a: Artifact) {
    || (s.scheduler.ReadingWeights? && s.scheduler.id == id && a.Model?)
    || (s.scheduler.ReadingPreprocessing? && s.scheduler.id == id && (a.Model? || a.Weights?))
  }

  /** A payload was built for the job's incarnation, or is being built and has this file. */
  predicate InPayload(s: State, id: JobId, a: Artifact) {
    (id in s.records && exists d <- s.log.builds :: d.uid == s.records[id].uid) || AlreadyRead(s, id, a)
  }

  /** No file that is in a payload is written, except with the bytes it has. */
  predicate WriteHarmless(s: State, l: Label) {
    Moves(s, l) && s.threads[l.t].Writing? ==>
      var (id, a) := (s.threads[l.t].id, s.threads[l.t].artifact);
      !InPayload(s, id, a) || (a in FilesIn(s, id) && FilesIn(s, id)[a] == s.threads[l.t].data)
  }

  lemma ReadsKeptInStep(s: State, l: Label)
    requires Tracked(s) && WriteHarmless(s, l) && ReadsKept(s)
    ensures ReadsKept(Apply(s, l))
  {
    if Moves(s, l) {
      ThreadTurns(s, l);
      TurnFiles(s, l);
      ReadsKeptInTurn(s, Apply(s, l), l);
    } else if l.SchedulerStep? {
      ReadsKeptInSchedule(s, l.ok);
    }
  }

  lemma ReadsKeptInTurn(s: State, s': State, l: Label)
    requires WriteHarmless(s, l) && ReadsKept(s) && Moves(s, l) && s'.scheduler == s.scheduler
    requires
      var thread := s.threads[l.t];
      && (forall id :: id != thread.id || !thread.Writing? ==> FilesIn(s', id) == FilesIn(s, id))
      && (thread.Writing? ==> FilesIn(s', thread.id) == FilesIn(s, thread.id)[thread.artifact := thread.data])
    ensures ReadsKept(s')
  {
  }

  lemma ReadsKeptInSchedule(s: State, ok: bool)
    requires ReadsKept(s)
    ensures ReadsKept(Schedule(s, s.scheduler, ok))
  {
    if !Writes(s.scheduler, ok) {
      ReadChangesNothing(s, ok);
    }
  }

  lemma StillGivenInStep(s: State, l: Label, d: Delivery)
    requires MovesForward(s, l) && WriteHarmless(s, l) && d in s.log.builds && StillGiven(s, d)
    ensures StillGiven(Apply(s, l), d)
  {
    var s' := Apply(s, l);
    BirthsGrow(s, l);
    forall id <- s'.records | s'.records[id].uid == d.uid
      ensures !s'.records[id].status.PendingUpload? && Gives(FilesIn(s', id), d.payload)
    {
      assert id in s.records && s.records[id].uid == d.uid;
      BuiltFilesStay(s, l, id, d);
    }
  }

  /** The files of an incarnation with a build stay. */
  lemma BuiltFilesStay(s: State, l: Label, id: JobId, d: Delivery)
    requires WriteHarmless(s, l) && d in s.log.builds
    requires id in s.records && s.records[id].uid == d.uid && id in Apply(s, l).records
    ensures FilesIn(Apply(s, l), id) == FilesIn(s, id)
  {
    if Moves(s, l) {
      TurnFiles(s, l);
      assert s.threads[l.t].Writing? && s.threads[l.t].id == id ==> InPayload(s, id, s.threads[l.t].artifact);
    } else if l.SchedulerStep? {
      ScheduleFiles(s, l.ok);
    } else if !l.ThreadStep? {
      OtherStepsTouchNothing(s, l);
    }
  }

  lemma BirthsGrow(s: State, l: Label)
    ensures s.log.births <= Apply(s, l).log.births
  {
  }

  /** A payload is built from the queued record that was rechecked. */
  lemma BuildInStep(s: State, l: Label)
    ensures
      var s' := Apply(s, l);
      if l.SchedulerStep? && s.scheduler.ReadingPreprocessing? then
        && s'.scheduler.Sending? && s'.scheduler.delivery.uid == s.scheduler.uid
        && s'.scheduler.delivery.payload.model == s.scheduler.model
        && s'.scheduler.delivery.payload.weights == s.scheduler.weights
        && s'.log.builds == s.log.builds + [s'.scheduler.delivery]
        && s'.records == s.records && s'.dirs == s.dirs && s'.log.births == s.log.births && s'.log.sends == s.log.sends
        && s'.scheduler.delivery.payload.preprocessing ==
             var files := FilesIn(s, s.scheduler.id);
             if BufferModel.Preprocessing in files then Some(files[BufferModel.Preprocessing]) else None
      else
        s'.log.builds == s.log.builds && (s'.scheduler.Sending? ==> s'.scheduler == s.scheduler)
  {
  }

  lemma BuildIsGiven(s: State, l: Label)
    requires Tracked(s) && ReadsKept(s) && l.SchedulerStep? && s.scheduler.ReadingPreprocessing?
    ensures StillGiven(Apply(s, l), Apply(s, l).scheduler.delivery)
  {
    BuildInStep(s, l);
    assert IsStill(s, s.scheduler.id, s.scheduler.uid, BufferModel.Queued);
  }

  lemma PayloadsGivenInStep(s: State, l: Label)
    requires Tracked(s) && SaveKeeps(s, l) && WriteHarmless(s, l) && PayloadsGiven(s)
    ensures PayloadsGiven(Apply(s, l))
  {
    var s' := Apply(s, l);
    ForwardIff(s, l);
    ReadsKeptInStep(s, l);
    BuildInStep(s, l);
    SendsInStep(s, l);
    if s'.log.builds != s.log.builds {
      BuildIsGiven(s, l);
    }
    forall d <- s'.log.builds ensures StillGiven(s', d) {
      if d in s.log.builds {
        StillGivenInStep(s, l, d);
      }
    }
  }

  /** A payload for an incarnation that exists is determined by its directory; one for an incarnation
      that is gone was, at any earlier time it existed. */
  lemma SamePayloadsInStep(s: State, l: Label)
    requires Tracked(s) && SaveKeeps(s, l) && PayloadsGiven(s) && SamePayloads(s.log.builds)
    ensures SamePayloads(Apply(s, l).log.builds)
  {
    var s' := Apply(s, l);
    BuildInStep(s, l);
    if s'.log.builds != s.log.builds {
      BuildIsGiven(s, l);
      var (id, d) := (s.scheduler.id, s'.scheduler.delivery);
      forall e <- s.log.builds | e.uid == d.uid ensures e.payload == d.payload {
        assert StillGiven(s, e) && IsStill(s, id, d.uid, BufferModel.Queued);
        GivesOne(FilesIn(s, id), e.payload, d.payload);
      }
    }
  }

  lemma GivesOne(files: Files, p: Payload, q: Payload)
    requires Gives(files, p) && Gives(files, q)
    ensures p == q
  {
  }

  predicate KeepsAndHarmless(s: State, l: Label) {
    SaveKeeps(s, l) && WriteHarmless(s, l)
  }

  /** What has been read and built stays what is on disk. */
  ghost predicate StaysGiven(s: State, l: Label) {
    var s' := Apply(s, l);
    ReadsKept(s') && forall d <- s'.log.builds :: StillGiven(s', d)
  }

  ghost predicate ForwardAndGiven(s: State, l: Label) {
    MovesForward(s, l) && StaysGiven(s, l)
  }

  /** If every save finds what it read and no file in a payload changes, all payloads built for one
      incarnation are equal, and what is sent is one of them. */
  lemma {:induction false} PayloadsFrozen(steps: seq<Label>)
    requires Always(KeepsAndHarmless, steps)
    ensures Tracked(Exec(steps)) && PayloadsGiven(Exec(steps))
    ensures SamePayloads(Exec(steps).log.builds)
    ensures forall d <- Exec(steps).log.sends :: d in Exec(steps).log.builds
  {
    if steps != [] {
      var s, l := Exec(steps[..|steps| - 1]), steps[|steps| - 1];
      PayloadsFrozen(steps[..|steps| - 1]);
      TrackedInStep(s, l);
      PayloadsGivenInStep(s, l);
      SamePayloadsInStep(s, l);
    }
  }

  lemma GivenIff(s: State, l: Label)
    requires Tracked(s) && PayloadsGiven(s)
    ensures ForwardAndGiven(s, l) <==> KeepsAndHarmless(s, l)
  {
    ForwardIff(s, l);
    if KeepsAndHarmless(s, l) {
      PayloadsGivenInStep(s, l);
    } else if !WriteHarmless(s, l) {
      HarmBreaksPayload(s, l);
    }
  }

  lemma HarmBreaksPayload(s: State, l: Label)
    requires PayloadsGiven(s) && !WriteHarmless(s, l)
    ensures !StaysGiven(s, l)
  {
    var (thread, s') := (s.threads[l.t], Apply(s, l));
    ThreadTurns(s, l);
    TurnFiles(s, l);
    BuildInStep(s, l);
    if !AlreadyRead(s, thread.id, thread.artifact) {
      var d :| d in s.log.builds && d.uid == s.records[thread.id].uid;
      assert StillGiven(s, d) && d in s'.log.builds;
      ChangeGivesOther(FilesIn(s, thread.id), d.payload, thread.artifact, thread.data);
      assert !StillGiven(s', d);
    }
  }

  lemma ChangeGivesOther(files: Files, payload: Payload, a: Artifact, data: Data)
    requires Gives(files, payload) && !(a in files && files[a] == data)
    ensures !Gives(files[a := data], payload)
  {
  }

  /** Over a whole run the lifecycle holds, and what has been read or built for an incarnation stays what
      its directory gives, exactly if every save finds what it read and no write changes a file that is
      in a payload. */
  lemma {:induction false} PayloadsFrozenIff(steps: seq<Label>)
    ensures Always(ForwardAndGiven, steps) <==> Always(KeepsAndHarmless, steps)
  {
    if steps != [] {
      var init := steps[..|steps| - 1];
      PayloadsFrozenIff(init);
      if Always(KeepsAndHarmless, init) {
        PayloadsFrozen(init);
        GivenIff(Exec(init), steps[|steps| - 1]);
      }
    }
  }

  /** A payload is of a job past pending_upload, so a write that is not late changes none. */
  lemma FreshIsHarmless(s: State, l: Label)
    requires Tracked(s) && PayloadsGiven(s) && WriteFresh(s, l)
    ensures WriteHarmless(s, l)
  {
    if Moves(s, l) && s.threads[l.t].Writing? && s.threads[l.t].id in s.records {
      var id := s.threads[l.t].id;
      forall d <- s.log.builds | d.uid == s.records[id].uid ensures !s.records[id].status.PendingUpload? {
        assert StillGiven(s, d);
      }
    }
  }

  lemma {:induction false} FreshWritesHarmless(steps: seq<Label>)
    requires Always(SaveKeeps, steps) && Always(WriteFresh, steps)
    ensures Always(KeepsAndHarmless, steps)
  {
    if steps != [] {
      FreshWritesHarmless(steps[..|steps| - 1]);
      PayloadsFrozen(steps[..|steps| - 1]);
      FreshIsHarmless(Exec(steps[..|steps| - 1]), steps[|steps| - 1]);
    }
  }

  /** So with serial requests, restarts included, no file of a job past pending_upload changes and
      every attempt for an incarnation carries the same payload. */
  lemma SerialRequestsFreezePayloads(steps: seq<Label>)
    requires Always(Serial, steps)
    ensures Always(KeepsFiles, steps)
    ensures SamePayloads(Exec(steps).log.builds)
    ensures forall d <- Exec(steps).log.sends :: d in Exec(steps).log.builds
  {
    SerialSavesKeep(steps);
    SerialWritesFresh(steps);
    FilesFrozenIff(steps);
    FreshWritesHarmless(steps);
    PayloadsFrozen(steps);
  }
}
