# Verification of the buffer TEE

A Dafny model of the job buffer in front of the processing TEEs, with proofs about all of its runs.
`dafny verify dfyconfig.toml` checks everything.

## The parts

**Jobs, queue and dispatch** (`Buffer*.dfy`, `Upload*.dfy`). `BufferModel` is a step machine: the
job directories, the queue, the start timestamps, a clock, the scheduler thread's program counter with
its local (and possibly stale) copies, and a history that no step reads. Request threads create jobs
and deliver artifacts between any two scheduler steps; probes, start commands and sends come out either
way; the process may restart. A label that does not apply changes nothing, so every label sequence is a
run and every theorem speaks of all of them. `BufferInvariant`, `BufferHistory`, `BufferSubmissions`
and `BufferProvisioning` hold what each step keeps, `BufferTheorems` what follows for whole runs, and
`BufferProgress` that good scheduler ticks finish the jobs. `BufferManager` is the same program as
methods that update fields in place, with the source's loops and calls, and requests interfering
wherever no lock is held; each method extends one run of the machine, so the theorems hold of it. What
probes, commands, sends and removals answered is kept in a list of events of its own, to which the
contracts tie what the scheduler then does.

Uploads and creates are single steps there. That is an assumption: `_receive_artifact` and
`_create_job_record` take no lock, whatever lib/buffer_lock.py:3-4 says of shared use. `UploadRaces`
drops it, making every read and write of a file a step of its own, with restarts at any moment;
`UploadAlone` shows that uninterrupted these steps are the atomic ones. At most one job is dispatched
even with interruptions. The other results need conditions, each of which the code could test
before the step, and hold at every step of a run exactly if the conditions do:

- the lifecycle: every save finds the record it read, still pending or queued already where it would be
  queued (`UploadGuards.LifecycleKeptIff`);
- and what is sent is sent once: also no restart comes between a send and its mark (`SentOnceIff`);
- and payloads stay what the directory gives: also no write changes a file that is in a payload
  (`UploadPayloads.PayloadsFrozenIff`);
- first in, first out: every write of the queue finds the queue it read (`UploadQueue.FifoIff`);
- the queue lists exactly the queued jobs, each once, and the lifecycle holds: also every save finds its
  record still pending, and no restart comes between a save and its append or between a mark and its
  removal (`QueueSoundIff`).

Requests that start only while no other works on the same job meet what these ask of saves and writes of
files; a queue that is read for an update only while nobody else updates it meets what they ask of queue
writes. `UploadCounterRuns` has runs that go wrong for want of each.

Two more places where the code and its description differ, and the model follows the code. A
rejected upload is already on disk (enclave_manager_buffer.py:303 comes before line 312) and counts as
arrived, so README.md:56 of the repository (queued means the hashes verified) does not hold;
`CommittedHashes` says exactly when it does. And a first start of the CPU is measured against the last
start of the GPU (line 429), which `RetryNotBlocked` accounts for.

**Chunked uploads** (`Chunked*.dfy`). The AES-256-GCM-CHUNKED-v1 stream: a reference encoder from the
wire format, the decoder as a function of its bytes, and the decoder as it runs, consuming a reader and
incrementing a nonce in place. Framing, nonce arithmetic and the printed associated data are concrete.
JSON parsing, HPKE, AES-GCM and SHA-256 are functions of a `Library`; what a theorem needs of them it
requires by name (`ExactAead`, `IdealAead`), and both requirements are shown to be satisfiable. A
duplicate of the last frame is not a modified upload but trailing bytes, which the decoder leaves
unread; `EditedFramesAccepted` says exactly which frame lists pass, and `ChunkedRejections` which error
every other request gets.

**Key rotation** (`KeyRotation.dfy`). The attestation bundle builder, with refresh and rotation split at
their unlocked fetch, any number of readers, and the rotator loop that keeps writers from overlapping.

**JWKS keys and cache** (`JwkKeys.dfy`, `JwksCache.dfy`). The exponent loop on wrapping 64-bit ints
against the big-endian value and against the big-integer decoder; the key map; and the double-checked
cache as a step machine of any number of concurrent calls, with the writer's two assignments as two
steps.

**Evaluation metrics** (`Metrics.dfy`). Batched inference with an arbitrary network, predictions,
accuracy, the confusion matrix filled in place, and the distribution.

Times are seconds as reals in the buffer and nanoseconds as integers in the cache; clocks do not run
backwards. `Bytes.dfy`, `Integers.dfy` and `Wrappers.dfy` are shared helpers.

## Model

| member | source | states |
|---|---|---|
| BufferTheorems.FifoConservation | enclave_manager_buffer.py:167-186 | In every reachable state the log of ids ever enqueued is the completed ids, then the one in flight, then the queue, in order; the queue has no duplicates and holds exactly the ids whose record is queued, also when ids are reused after cleanup |
| BufferTheorems.AtMostOneDispatched | enclave_manager_buffer.py:812-816 | Two records with status dispatched are the same record, in every reachable state |
| BufferTheorems.PickStable | enclave_manager_buffer.py:812-845 | From the pick to the mark, whatever creates, uploads, probes, starts and stale write-backs interleave, the picked job is what the next pick would return, and its record changed at most in the attempt count (which never shrinks) and the provisioning target |
| BufferTheorems.RecheckSucceeds | enclave_manager_buffer.py:841-845 | So the recheck after provisioning never gives up: the payload it builds is that of the queued job on disk, with every required file there, and is made of the create request and the latest uploads of that incarnation |
| BufferInvariant.WithoutSplit | enclave_manager_buffer.py:173-176 | Removing an id from the queue drops its occurrences, wherever they stand, and keeps everything else in order |
| BufferTheorems.LifecycleStep | enclave_manager_buffer.py:717-726 | One step of anything moves a record at most one place along pending_upload, queued, dispatched, complete |
| BufferTheorems.LifecycleForward | enclave_manager_buffer.py:763-783 | Over any stretch of a run an incarnation of a job keeps its submission data and its status never moves back |
| BufferTheorems.NeverSentTwice | enclave_manager_buffer.py:847-860 | No incarnation of a job is successfully sent twice, and every send carries a payload built for that incarnation |
| BufferTheorems.TimeBounds | job_scheduler.py:83-106 | A complete record has completed_at >= dispatched_at + grace; a deleted one was complete and is removed no earlier than dispatched_at + grace + retention |
| BufferTheorems.CommittedHashes | enclave_manager_buffer.py:293-332 | For a job past pending_upload, each artifact its create request committed to is in the payload, and its hash there is the committed one if and only if the latest upload of that artifact was accepted |
| BufferTheorems.RecordsAsSubmitted | enclave_manager_buffer.py:262-286 | In every run each record holds the job id, data set, commitments and details of the request that created it, and the time of that request |
| BufferTheorems.SentAsSubmitted | enclave_manager_buffer.py:640-664 | In every run, whatever was sent or is about to be carries the job id, data set, submission time, submitter, token and hyperparameters of the create request of its incarnation, and as model, weights and preprocessing the bytes of the latest upload of each with the hash of those bytes; preprocessing exactly if it was uploaded |
| BufferTheorems.QueuedWithWrongModel | enclave_manager_buffer.py:301-332 | Counter-run, for every request that commits only a model hash and every model that does not match it: the rejected model stays on disk and the job is queued with it |
| BufferTheorems.PayloadFrozen | enclave_manager_buffer.py:640-664 | All payloads ever built for one incarnation of a job are equal, and equal to what its directory still gives |
| BufferTheorems.ProvisioningOverLife | enclave_manager_buffer.py:544-623 | Over a job's whole life the persisted attempt count is the number of accepted GPU starts for it and stays within the maximum; every send, and every choice from the recheck on, has the address and the image digest configured for its target, GPU or CPU; a send goes to the CPU only with the attempts used up; from the recheck on, the record names the chosen target |
| BufferTheorems.CpuOnlyAfterAcceptedStarts | enclave_manager_buffer.py:593-601 | The CPU is chosen only after exactly the maximum number of accepted GPU starts: failed and skipped starts never lead there |
| BufferTheorems.FinalizeProbesSentAddress | enclave_manager_buffer.py:770-772 | The address probed when finalizing a job is the one its successful send went to, and is not empty |
| BufferTheorems.StartsSpaced | enclave_manager_buffer.py:426-453 | Any two start requests for one target, in any run, are at least the cooldown apart |
| BufferTheorems.RetryNotBlocked | enclave_manager_buffer.py:577-623 | With boot timeout >= cooldown, once a call has started the GPU its later GPU retries, and a first-ever CPU start in it, are not skipped by the cooldown (the CPU one being measured against the GPU's timestamp) |
| BufferTheorems.GpuCallEndsIff | enclave_manager_buffer.py:577-623 | Of the ways a call that is trying the GPU can end short of the CPU (a skipped start, a refused one, a GPU without an address, a restart), with boot timeout >= cooldown only its first start can be skipped; otherwise it goes on trying, finds the GPU up, or turns to the CPU |
| BufferTheorems.GpuCallTurnsToCpu | enclave_manager_buffer.py:577-623 | Over any stretch of a run, with boot timeout >= cooldown: a call whose first start is not skipped, whose starts are all accepted and whose waits all fail turns to the CPU before it has taken three steps of its own for each attempt left |
| BufferProgress.GoodTickCompletes | enclave_manager_buffer.py:798-868 | A scheduler tick in which nothing goes wrong completes what was in flight and dispatches exactly the head of the queue |
| BufferProgress.TickLosesNoGround | enclave_manager_buffer.py:798-868 | A tick without arrivals, however badly it goes, never increases the number of good ticks still needed |
| BufferProgress.GoodTicksCount | enclave_manager_buffer.py:731-868 | After any mix of ticks the measure has fallen by at least the number of good ones, down to zero |
| BufferProgress.AllJobsComplete | enclave_manager_buffer.py:731-868 | From any state between ticks of any run, once the following ticks without arrivals include one good tick more than there are queued jobs, every job ever enqueued is complete, in queue order, and none is queued or dispatched |
| BufferProgress.GoodTickExists | enclave_manager_buffer.py:798-868 | With both targets configured, every reachable state between ticks has a good tick, so the progress results are not vacuous |
| BufferManager.Manager.CreateJobRecord | enclave_manager_buffer.py:250-286 | Creates a pending_upload record of the request's data, the present time and the next incarnation number in a new directory, or fails with the right error exactly for a data set other than 1, 2 or 3 or an existing directory, changing nothing |
| BufferManager.Manager.ReceiveArtifact | enclave_manager_buffer.py:289-338 | For a pending job and a known artifact name the file is written, whatever its hash; then either the hash differs from the one committed for that artifact, and record and queue stay, or the record is updated, and queued at the tail exactly if model, weights and any committed preprocessing are there. Otherwise nothing changes, with the error for the reason |
| BufferManager.Manager.VmIsHealthy | enclave_manager_buffer.py:359-380 | A probe of an endpoint answers either way and leaves the scheduler's state alone, while requests interleave |
| BufferManager.Manager.StopVm | enclave_manager_buffer.py:464-482 | For every positive poll interval the stop wait terminates having slept exactly the configured wait, after running the stop command; without one it does nothing |
| BufferManager.Manager.WaitForVm | enclave_manager_buffer.py:485-493 | Probes only its target; returns true exactly if its last probe, and none before, was healthy; times out only past the deadline and overshoots it by less than one probe and one poll; a timeout of zero or less costs no time |
| BufferManager.Manager.RequestVmStart | enclave_manager_buffer.py:422-453 | Skips exactly when the clock is within the cooldown of the target's timestamp (or of the global one, if it has none); otherwise asks for the target's start, answers as the command did, and saves the time from before the command whatever its outcome |
| BufferManager.Manager.RestartGpu | enclave_manager_buffer.py:591-600 | A retry asks the GPU to stop before it is started; the first attempt of a job does not |
| BufferManager.Manager.FinishStart | enclave_manager_buffer.py:593-605 | Only an accepted GPU start is counted against the job, points it at the GPU and is saved with it; every start is logged with its outcome and its time |
| BufferManager.Manager.ProbeGpuFirst | enclave_manager_buffer.py:568-572 | A GPU that answers its first probe is chosen with its own address and digest, and the job is saved as targeting it, with no attempt used |
| BufferManager.Manager.TryCpuFallback | enclave_manager_buffer.py:506-541 | Chooses the CPU, with its own address and digest and the record pointed at it, exactly after a probe of it that was healthy, or ends the call; without an address or a digest it does nothing; its duration is bounded by one probe, one command and one boot wait |
| BufferManager.Manager.ProvisionRound | enclave_manager_buffer.py:577-616 | One GPU round: consumes an attempt exactly if the start command was run and accepted, succeeds on a healthy probe, ends a failed wait by a stop, within the time of two stops, one start and one boot wait |
| BufferManager.Manager.GpuRounds | enclave_manager_buffer.py:577-623 | The loop ends with a healthy GPU, at the CPU fallback, or short of both by a start refused or skipped, which with boot timeout >= cooldown can only be the call's first: with that start not skipped, every start accepted and no wait succeeding, it reaches the CPU fallback, within the bound |
| BufferManager.Manager.ProvisionProcessingTee | enclave_manager_buffer.py:544-623 | A call adds only provisioning and request steps, ends with the chosen target or giving up, changes only the job's progress, and lasts no longer than the closed bound; what it returns is the address and digest configured for the target whose probe, its last, was the only healthy one, so the CPU only if no probe of the GPU was healthy |
| BufferManager.ProvisioningTimeIs | enclave_manager_buffer.py:577-623 | That bound in closed form in the attempts left, boot timeouts, stop wait and poll interval |
| BufferManager.StopWaitIsExact | enclave_manager_buffer.py:478-481 | The clipped sleeps add up to the configured wait for every positive poll interval |
| BufferManager.Manager.CleanupOldJobs | job_scheduler.py:83-108 | Tries to remove exactly the complete and rejected jobs unchanged for the retention time, each once; what can be removed is gone, and nothing else has changed |
| BufferManager.Manager.FinalizeDispatchedJobs | enclave_manager_buffer.py:731-795 | A dispatched job within its grace is left alone without a probe; past it, its assigned address is probed once, and it is completed exactly if the probe fails; the completion log grows by exactly the ids returned, and nothing is marked or sent |
| BufferManager.Manager.FinalizeOne | enclave_manager_buffer.py:763-783 | A listed job past its grace is probed where it was assigned (or at the GPU address, if its record has none) and, exactly if that fails, saved as complete with the time of the pass, changed in nothing else |
| BufferManager.Manager.NextQueuedJob | enclave_manager_buffer.py:179-186 | The loop returns the record of the first queued id, skipping missing directories and other statuses, or nothing if there is none |
| BufferManager.Manager.PickJob | enclave_manager_buffer.py:812-816 | Picks the first queued job; nothing exactly while any job is dispatched or none is queued |
| BufferManager.Manager.BuildSecureDispatchPayload | enclave_manager_buffer.py:640-664 | The payload carries the data of the record, each file on disk in its own field with its hash, and preprocessing exactly if it is there; a missing model or weights file is the exception |
| BufferManager.Manager.RunRatlsDispatch | enclave_manager_buffer.py:683-714 | Sends the payload to the chosen address under the chosen digest, or refuses without a digest; a send is logged, and the job goes on to be marked, exactly if the dispatch program succeeded |
| BufferManager.Manager.MarkJobDispatched | enclave_manager_buffer.py:717-726 | Saves the job at the head of the queue as dispatched, with the address it was sent to and the present time and no other change, and removes exactly that entry |
| BufferManager.Manager.DispatchNextQueuedJob | enclave_manager_buffer.py:798-868 | The callback extends the run by machine steps and ends idle; it returns a job exactly if it marked that one, after a send to its target's own address and digest that succeeded, and the record names that address; if it returns none, nothing was sent |
| BufferManager.Manager.SchedulerRound | job_scheduler.py:141-154 | After every round the queue, the history and the records agree as FifoConservation says, and at most one job is dispatched |
| UploadRaces.SingleDispatchWithoutAtomicity | enclave_manager_buffer.py:289-338 | With every single file read and write its own step, of any number of request threads and the scheduler, and restarts anywhere, still at most one job is dispatched |
| UploadAlone.CreateAlone | enclave_manager_buffer.py:250-286 | Uninterrupted, the file operations of a create have the effect of the create step of the atomic machine |
| UploadAlone.UploadAlone | enclave_manager_buffer.py:289-338 | Uninterrupted, the file operations of an upload (write, hash check, look for each required file, save, read and write the queue) have the effect of the atomic upload step, whatever comes of the hash check |
| UploadAlone.ScanAlone | enclave_manager_buffer.py:812-816 | Uninterrupted, the scan reads every record of its listing and goes on to the queue if none is dispatched |
| UploadAlone.ScanStops | enclave_manager_buffer.py:812-816 | It gives up at the first record that is |
| UploadAlone.PickAlone | enclave_manager_buffer.py:179-186 | The pick then takes the first id of the queue whose record says queued, and gives up if there is none |
| UploadAlone.RecheckScans | enclave_manager_buffer.py:841-844 | The recheck goes on exactly if that id is the one picked before |
| UploadAlone.DispatchAlone | enclave_manager_buffer.py:841-860 | Uninterrupted, the reads, the send, the mark and the removal have the effect of the atomic recheck, send and mark: the head of the queue is sent with the files it has and is then dispatched and off the queue |
| UploadAlone.CompleteAlone | enclave_manager_buffer.py:775-783 | Uninterrupted, a finalization is the atomic completion of that job |
| UploadAlone.DeleteAlone | job_scheduler.py:99-108 | Uninterrupted, a deletion removes that directory and nothing else |
| UploadGuards.LifecycleKeptIff | enclave_manager_buffer.py:289-338 | Without atomic uploads, over a whole run: at every step records of an incarnation move forward only, go only when complete, and new ones are new pending incarnations, if and only if every save finds the incarnation it read, still pending, or already queued by another upload where it would queue it too |
| UploadGuards.SentOnce | enclave_manager_buffer.py:847-860 | In a run whose saves do, with no restart between a send and its mark, no incarnation is sent twice |
| UploadGuards.SentOnceIff | enclave_manager_buffer.py:847-860 | Over a whole run the lifecycle holds, and whatever was sent was sent once and is dispatched, complete, gone or about to be marked, if and only if every save finds what it read and no restart comes between a send and its mark |
| UploadGuards.SerialRequestsSentOnce | enclave_manager_buffer.py:250-338 | If a request for a job starts only while no other request works on it, the lifecycle holds at every step, restarts included, and what was sent was sent once and stays settled if and only if no restart comes between a send and its mark |
| UploadPayloads.FilesFrozenIff | enclave_manager_buffer.py:298-303 | Over a whole run no file of a job past pending_upload changes if and only if every write finds the job pending, or the same bytes |
| UploadPayloads.PayloadsFrozen | enclave_manager_buffer.py:640-664 | If saves find what they read and no write changes a file in a payload, all payloads built for one incarnation, each file read on its own, are equal, and what is sent is one of them |
| UploadPayloads.PayloadsFrozenIff | enclave_manager_buffer.py:640-664 | Over a whole run the lifecycle holds, and what was read or built for an incarnation stays what its directory gives, if and only if every save finds what it read and no write changes a file of an incarnation with a payload built, or a file already read for the one being built |
| UploadPayloads.SerialRequestsFreezePayloads | enclave_manager_buffer.py:640-664 | With serial requests no file of a job past pending_upload changes, and every attempt for an incarnation carries the same payload |
| UploadQueue.FifoIff | enclave_manager_buffer.py:167-176 | In every run, what was enqueued is what was removed and then the queue, at every step, if and only if every write of the queue changes what is on disk only by the job it appends or removes |
| UploadQueue.QueueSoundIff | enclave_manager_buffer.py:167-186 | Over a whole run the lifecycle holds and the queue is first in, first out, without duplicates, listing the queued jobs (but for those one thread is about to append) and at most one dispatched job being removed, if and only if every save finds the record it read still pending, every queue write finds the queue it read, and no restart comes between a save and its append or a mark and its removal |
| UploadQueue.SerialQueueSoundIff | enclave_manager_buffer.py:167-186 | With serial requests the queue lists the queued jobs, each once, and is first in, first out at every step if and only if every queue write finds the queue it read and no restart comes in those two windows |
| UploadQueue.ExclusiveUpdatesKeepQueue | enclave_manager_buffer.py:167-176 | With serial requests, no restart in those windows, and the queue read for an update only while nobody else updates it, the queue is first in, first out, has no duplicates, lists queued jobs (and one being removed), and every queued job is in it or about to be appended by a thread |
| UploadCounterRuns.RacingUploadsSendTwice | enclave_manager_buffer.py:289-338 | A run with no restart in which two overlapping uploads of a last artifact get one incarnation sent twice |
| UploadCounterRuns.LateWriteChangesPayload | enclave_manager_buffer.py:301-317 | A run whose saves all find what they read, in which a late and even rejected upload changes the queued job's model, so that two attempts for one incarnation carry different payloads |
| UploadCounterRuns.OverlappingAppendsLoseJob | enclave_manager_buffer.py:167-170 | A run with serial requests and no restart in which two overlapping appends leave a queued job out of the queue, with nobody to append it |
| UploadCounterRuns.OverlappingRemovalIsUndone | enclave_manager_buffer.py:167-176 | A run with serial requests and no restart in which an append that overlaps a removal puts a dispatched job back into the queue |
| UploadCounterRuns.RestartSendsTwice | enclave_manager_buffer.py:847-860 | A run with serial requests in which a restart between a send and its mark gets one incarnation sent twice |
| UploadCounterRuns.RestartLosesJob | enclave_manager_buffer.py:329-332 | A run with serial requests in which a restart between a save and its append leaves a queued job out of the queue |
| UploadCounterRuns.RestartLeavesDispatched | enclave_manager_buffer.py:717-726 | A run with serial requests in which a restart between a mark and its removal leaves a dispatched job in the queue |
| UploadCounterRuns.OverlappingSavesQueueTwice | enclave_manager_buffer.py:289-338 | A run in which the lifecycle holds and two overlapping uploads of a last artifact, both saved before the pick, list the job twice |
| ChunkedProofs.AadInjective | Tanuh-buffer-tee-ratls/enclave/internal/server/submit.go:279 | The printed associated data determines chunk number, chunk count and file id, whatever bytes the file id holds |
| ChunkedProofs.AadLayout | Tanuh-buffer-tee-ratls/enclave/internal/server/submit.go:279 | The associated data is the decimal numeral of the chunk number, a colon, that of the chunk count, a colon, and the file id |
| ChunkedProofs.IncrementAddsOne | Tanuh-buffer-tee-ratls/enclave/internal/server/submit.go:287-293 | The byte-wise carry adds one modulo 256 to the length |
| ChunkedProofs.NonceStep | Tanuh-buffer-tee-ratls/enclave/internal/server/submit.go:264-293 | Before chunk i the nonce is baseIV + i modulo 2^96, wrap-around included: one carry leads from each to the next |
| ChunkedProofs.NoncesDistinct | Tanuh-buffer-tee-ratls/enclave/internal/server/submit.go:23-27 | No two chunks of an upload share a nonce (section 8 of NIST SP 800-38D), even when the counter wraps |
| ChunkedProofs.RoundTrip | Tanuh-buffer-tee-ratls/enclave/internal/server/submit.go:181-306 | If the header has 1 to 16384 chunks, a file id, fields that decode, a 12-byte base IV and a wrapped key that unwraps to 32 bytes under the context of both keys, then decoding the reference encoding of any chunks, followed by anything, returns their concatenation and consumes exactly 4+(header)+sum(4+ciphertext) bytes |
| ChunkedProofs.CanonicalAcceptance | Tanuh-buffer-tee-ratls/enclave/internal/server/submit.go:202-306 | Whatever is accepted was, up to the unread rest, the reference encoding of the returned plaintext's chunks under the session its header announces |
| ChunkedProofs.TrailingBytesIgnored | Tanuh-buffer-tee-ratls/enclave/internal/server/submit.go:269-306 | Bytes after an accepted upload never change the result and stay unread |
| ChunkedProofs.NoStrictPrefixAccepted | Tanuh-buffer-tee-ratls/enclave/internal/server/submit.go:202-277 | No strict prefix of the consumed bytes is accepted |
| ChunkedProofs.OnlyTheSendersFrames | Tanuh-buffer-tee-ratls/enclave/internal/server/submit.go:264-285 | Under an ideal AEAD a stream whose unauthenticated header unwraps to the sender's key is accepted only with the sender's base IV, count and file id and exactly the sender's frames in order |
| ChunkedProofs.EditedFramesAccepted | Tanuh-buffer-tee-ratls/enclave/internal/server/submit.go:264-294 | Swapping, dropping, duplicating, replacing or appending frames keeps an upload acceptable if and only if the sender's frames are still a prefix |
| ChunkedRejections.FirstDefectReported | Tanuh-buffer-tee-ratls/enclave/internal/server/submit.go:193-306 | A request is refused with an error if and only if that is the first defect of its bytes, in the order of the checks: key header, header length, header, each header field, the first frame that is cut off or does not open after frames that do, and the digest of the whole; so it is accepted if and only if it has none |
| ChunkedProofs.ContextInfoBindsBothKeys | Tanuh-buffer-tee-ratls/enclave/internal/hpke/hpke.go:24-33 | With 32-byte hashes the info string (section 5.1 of RFC 9180) is the protocol name, the hash of the enclave's key and the hash of the browser's, 76 bytes in all, and two are equal if and only if the hashes of both public keys are |
| ChunkedDecoder.IncrementNonce | Tanuh-buffer-tee-ratls/enclave/internal/server/submit.go:287-293 | The in-place carry loop computes the increment, for a counter of any length |
| ChunkedDecoder.DecryptChunkedUpload | Tanuh-buffer-tee-ratls/enclave/internal/server/submit.go:193-307 | Reading the body in place computes the decoder's meaning: same plaintext and same unread rest, or the same first error |
| ChunkedDecoder.OpenAll | Tanuh-buffer-tee-ratls/enclave/internal/server/submit.go:264-294 | The chunk loop opens every frame under baseIV + i and concatenates the plaintexts in order |
| ChunkedDecoder.Body.ReadFull | Tanuh-buffer-tee-ratls/enclave/internal/server/submit.go:211-213 | Reads exactly n bytes or fails |
| KeyRotation.ToStringSlice | Tanuh-buffer-tee-ratls/enclave/internal/bundle/bundle.go:166-183 | An array of strings or a single string, coerced; anything else is an error |
| KeyRotation.VerifyEatNonce | Tanuh-buffer-tee-ratls/enclave/internal/bundle/bundle.go:126-162 | Accepts exactly the tokens whose first two nonces are the binding key's fingerprint and the HPKE public key |
| KeyRotation.Builder.NewBuilder | Tanuh-buffer-tee-ratls/enclave/internal/bundle/bundle.go:29-50 | Succeeds exactly if a token came that binds the new keys, and then holds both |
| KeyRotation.Builder.Build | Tanuh-buffer-tee-ratls/enclave/internal/bundle/bundle.go:53-69 | A served bundle is the held token with the held keys and issue time, the token binds these keys, and the signature over the nonce asked for is by their signer |
| KeyRotation.Builder.HPKEKeys | Tanuh-buffer-tee-ratls/enclave/internal/bundle/bundle.go:118-122 | The held pair is returned, and is matched |
| KeyRotation.Builder.RefreshOIDC | Tanuh-buffer-tee-ratls/enclave/internal/bundle/bundle.go:73-91 | Replaces token and issue time exactly if the fetched token binds the held keys; otherwise changes nothing |
| KeyRotation.Builder.FullRotate | Tanuh-buffer-tee-ratls/enclave/internal/bundle/bundle.go:95-115 | Replaces keys, token and issue time together, exactly if the fetched token binds the new keys; otherwise changes nothing |
| KeyRotation.EveryBundleBound | Tanuh-buffer-tee-ratls/enclave/internal/bundle/bundle.go:53-122 | With one rotator, in every interleaving with any number of readers and failing fetches, each served bundle's token binds that bundle's keys, its signature is by them over the nonce asked for, and each HPKE pair read is matched |
| KeyRotation.RefreshBoundIff | Tanuh-buffer-tee-ratls/enclave/internal/bundle/bundle.go:73-91 | Whoever else ran, a refresh's write leaves the builder bound if and only if the keys it read have the fingerprints of the keys held by then |
| KeyRotation.OverlappingRotatorsBreakBinding | Tanuh-buffer-tee-ratls/enclave/internal/bundle/bundle.go:73-115 | Counter-run: a refresh overlapping a rotation leaves a token for the old keys with the new ones, and the next bundle does not bind |
| KeyRotation.SoloRefresh | Tanuh-buffer-tee-ratls/enclave/internal/bundle/bundle.go:73-91 | Uninterrupted, the read, fetch and write of a refresh are the one-step refresh |
| KeyRotation.SoloRotate | Tanuh-buffer-tee-ratls/enclave/internal/bundle/bundle.go:95-115 | Uninterrupted, the steps of a rotation are the one-step rotation |
| KeyRotation.Start | Tanuh-buffer-tee-ratls/enclave/internal/rotation/rotation.go:45-61 | The select loop applies the operations of its ticks one after the other, failed ones changing nothing, and keeps the builder bound |
| KeyRotation.KeysAfterEvents | Tanuh-buffer-tee-ratls/enclave/internal/rotation/rotation.go:45-61 | After any ticks the keys held are those of the last full tick whose token bound its keys, or the first ones if there was none |
| KeyRotation.TokenAfterEvents | Tanuh-buffer-tee-ratls/enclave/internal/rotation/rotation.go:45-61 | Token and issue time are those of the last tick whose token bound the keys now held, or the first ones if there was none |
| JwkKeys.ExponentLoop | Tanuh-buffer-tee-ratls/enclave/internal/server/auth.go:131-134 | The shift-or loop gives the big-endian value modulo 2^64 in the range of a signed int, for every byte string |
| JwkKeys.LoopExactIff | Tanuh-buffer-tee-ratls/enclave/internal/server/auth.go:131-137 | It gives the big-endian value (section 6.3.1.2 of RFC 7518) if and only if that is between 1 and 2^63 - 1, and is refused if and only if the low 64 bits are zero |
| JwkKeys.DecodersAgreeIff | b2p-ratls/pkg/ratls/verify_oidc.go:182-188 | Below 2^63 the big-integer decoder gives the value, and the two agree if and only if it is not zero, which only the loop refuses |
| JwkKeys.LeadingZerosIgnored | Tanuh-buffer-tee-ratls/enclave/internal/server/auth.go:131-134 | Any number of leading zero bytes changes neither result |
| JwkKeys.LastEightBytes | Tanuh-buffer-tee-ratls/enclave/internal/server/auth.go:131-137 | Only the last eight bytes count, in the value and in the refusal |
| JwkKeys.RsaPubKeyFromJWK | Tanuh-buffer-tee-ratls/enclave/internal/server/auth.go:122-139 | Succeeds if and only if both fields decode and the exponent's low 64 bits are not all zero; the modulus is then the value of n, the exponent that of e modulo 2^64 as a signed int |
| JwkKeys.LastUsableWins | Tanuh-buffer-tee-ratls/enclave/internal/server/auth.go:107-117 | An id is mapped if and only if it has a usable RSA entry, and then to the modulus and exponent of its last one |
| JwkKeys.ParseKeys | Tanuh-buffer-tee-ratls/enclave/internal/server/auth.go:107-118 | The loop builds that map |
| JwksCache.KeyCache.GetPublicKey | Tanuh-buffer-tee-ratls/enclave/internal/server/auth.go:50-86 | One call with its two checks, whatever others left in the cache between its locks: a key in a cache filled less than an hour ago is returned with the cache unchanged and nothing fetched; else the second check answers; else a failed fetch leaves the cache as it was, and a document fetched replaces keys and time and decides the answer |
| JwksCache.RecheckRedundantAlone | Tanuh-buffer-tee-ratls/enclave/internal/server/auth.go:64-72 | With no other call in between, the second check never hits |
| JwksCache.EveryAnswerJustified | Tanuh-buffer-tee-ratls/enclave/internal/server/auth.go:50-86 | In every interleaving of any number of calls: keys and time stamp come from the latest fetch whenever the lock is free; each call fetches and answers at most once; a key found was looked up in a document fetched by that very call or less than an hour before; not-found follows the call's own fetch lacking the id; and every fetch but the first was for an id that the document before it lacks, or at least an hour after it |
| JwksCache.OnlyStoresChangeCache | Tanuh-buffer-tee-ratls/enclave/internal/server/auth.go:74-79 | A failed fetch, and every step but a writer's two assignments, leaves the cache as it was |
| JwksCache.ConstantDocumentDirectLookup | Tanuh-buffer-tee-ratls/enclave/internal/server/auth.go:50-86 | While the published document stays the same, every answer but a failure equals direct lookup in it |
| JwksCache.SoloCall | Tanuh-buffer-tee-ratls/enclave/internal/server/auth.go:50-86 | Uninterrupted, the locking steps are the sequential call |
| Metrics.RunBatches | cvm_workflow/evaluation_script.py:57-65 | Batches of eight cover every sample once, in order; only the last may be shorter, and none is empty |
| Metrics.Confusion | cvm_workflow/evaluation_script.py:71-73 | Every update is in bounds unless a label lies below minus the size, the only error; then each cell counts the pairs that index it |
| Metrics.Evaluate | cvm_workflow/evaluation_script.py:57-93 | The script's result: the first error it raises, or the report for predictions that are, for each sample, the first of the greatest logits |
| Metrics.ColumnsAreDistributionIff | cvm_workflow/evaluation_script.py:72-78 | The column sums are the separately computed distribution if and only if there are at least as many labels as samples |
| Metrics.RowIsLabelCount | cvm_workflow/evaluation_script.py:72-73 | Row sums are the counts of the labels that have a prediction, negative labels counted from the end |
| Metrics.RowsAreLabelCountsIff | cvm_workflow/evaluation_script.py:72-73 | The row sums are the counts of all labels if and only if every label left over by zip is below minus the matrix size; so always with at most as many labels as samples |
| Metrics.TraceIs | cvm_workflow/evaluation_script.py:72-73 | The trace is the correct predictions plus the negative labels that wrap onto theirs |
| Metrics.AccuracyIsTraceIff | cvm_workflow/evaluation_script.py:67-73 | With one label a sample, accuracy is the trace over the number of samples if and only if no negative label wraps onto its prediction |
| Metrics.MetricsAgree | cvm_workflow/evaluation_script.py:57-78 | With one non-negative label a sample: columns are the distribution, rows the label counts, both totals the number of samples, and the trace over it the accuracy |
| Metrics.MatrixSize | cvm_workflow/evaluation_script.py:68-70 | The matrix size is the least positive number that is at least the declared number of classes and greater than every prediction and label |
| Metrics.Argmax | cvm_workflow/evaluation_script.py:66 | The first of the greatest entries |
| Metrics.Predictions | cvm_workflow/evaluation_script.py:66 | The prediction for a sample is where the greatest of its logits stands first |
| Metrics.Agreements | cvm_workflow/evaluation_script.py:67 | Predictions and labels are compared position by position, a vector of length one against all positions of the other; other lengths that differ are an error |
| Metrics.Mean | cvm_workflow/evaluation_script.py:67 | The mean times the number of comparisons is the number that hold |

## Left out

- Real cryptography, base64 and JSON: functions with stated assumptions, or fields that carry whether decoding succeeded. Keys are opaque values with fingerprint, encoding and signature functions; internal/keys is not part of this model, and a key generation or signature that fails is an operation that does not happen.
- HTTP handlers, Flask routes, proxying, CORS, shell scripts, metadata, TLS and EKM: probes, starts and sends have arbitrary outcomes. Durations are bounded by ten seconds for a probe (five to connect, five to answer), sixty for a command and 180 for a send.
- BufferManager.Manager: a window under `job_file_lock`, a create and an upload run as one step. Which results hold without that, and when, is in UploadRaces, UploadGuards, UploadPayloads and UploadQueue.
- BufferManager.Manager.ReceiveArtifact: atomic, see above. The file system's errors, a directory left without job.json, and torn JSON after a crash in the middle of a write are not modelled.
- BufferManager.Manager.CleanupOldJobs: a directory is removed whole or not at all; a tree removal that fails half-way is not modelled. Job files that do not parse are not modelled.
- BufferTheorems.NeverSentTwice: speaks of sends reported as done. A restart between a successful send and its mark, or while a start command runs, is excluded: there the code has not recorded the outcome (UploadCounterRuns.RestartSendsTwice shows what follows).
- BufferManager.Manager.VmIsHealthy: that a probe takes at most ten seconds is an assumption (the HTTP client bounds its connect and each read, not the whole); a probe with no URL configured is one that fails, and the recorded last probe is left out.
- UploadRaces.SingleDispatchWithoutAtomicity: each JSON file is read or written in one step, and a directory is deleted in one.
- BufferTheorems.TimeBounds: the clock is monotone; the source reads wall-clock time.
- BufferManager.Manager.BuildSecureDispatchPayload: without the callback URL and the constant file names; base64 is left off the file contents.
- Fields of dispatch_state.json that only record the last attempt and probe, logging, `_check_queue_health`, configuration loading, and `_requeue_job_id`, which has no caller.
- Result delivery: nothing writes results.json; completion is the finalize step.
- A job id that is generated when a request brings none: every id is the request's.
- JwkKeys.DecodersAgreeIff: from 2^63 on the big-integer conversion is undefined by its documentation, and nothing is said.
- JwksCache.EveryAnswerJustified: an age is measured at the instant the freshness test is evaluated.
- ChunkedDecoder.DecryptChunkedUpload: zeroing the key bytes, and a body that fails before its end, are not modelled; reading past the end is.
- Metrics.Evaluate: floating-point rounding (accuracy is a rational number), NaN logits, label and feature conversion, and 64-bit overflow of counts. Comparing vectors of different lengths, neither of length one, raises, as in NumPy 1.25 and later. Inference treats the rows of a batch independently.
- Claim checks in `Connect`, `VerifyOIDCToken`, `validateKeycloakJWT` and `requireRole`: each is settled by reading one branch.
