# Ale, My Eyes!: a verified model of its protocols, pipelines and state machines

This project models the parts of *Ale, My Eyes!* whose correctness spans several functions, tasks
or processes, and proves properties of all their inputs and runs. `dafny verify dfyconfig.toml`
checks everything.

The desktop program sends model jobs to a separate daemon. The client keeps a pending-reply map,
32 job slots, a byte budget, a reader task, a writer task and a drop guard; the daemon keeps a
cancellation table, the running jobs and a byte counter. `JobProtocol` puts both, and the two
channels between them, into one transition system and proves that the limits, which neither side
tells the other, agree. Around that core stand the supervisor that restarts the daemon, the two
adapters that own native worker processes, the streaming audio path, the chunked secure channel,
the transactional settings service, and five smaller state machines.

How the files are built: every component has a state `datatype` and step functions, lemmas about
all runs of those steps, and, where the program updates state in place, a `class` (or a method
with the program's loop) whose methods are proved equal to the step functions. Interleaving is
modelled by one step per atomic action; what the operating system, the network, a clock or a
dropped future may do is a parameter or a nondeterministic choice.

| file | component |
|---|---|
| `Common.dfy`, `Arithmetic.dfy` | option, result, sums over maps; products and quotients |
| `JobClient.dfy`, `ModeldClient.dfy` | client side of the job protocol: steps, and the object |
| `JobDaemon.dfy`, `ServeConnection.dfy` | daemon side: steps, and the select loop |
| `JobProtocol.dfy` | both processes, both channels, the global invariant |
| `JobCompletion.dfy` | the converse: nothing in it is ever lost |
| `JobAnswers.dfy`, `DaemonAnswers.dfy` | what callers are told, and what the daemon answers |
| `Supervisor.dfy`, `SupervisorRuns.dfy`, `SupervisorAnswers.dfy`, `HealthChecks.dfy` | restarting and configuring the daemon: steps and object, runs, what callers get, series of health checks |
| `SenseVoice.dfy`, `Llama.dfy` | ownership of the native workers |
| `Resampler.dfy`, `UnalignedPushes.dfy` | streaming resampler; pushes that cut a frame |
| `SampleBuffer.dfy` | bounded buffer, readers, capture pipeline |
| `SecureChannel.dfy` | fragmentation and reassembly |
| `SettingsService.dfy`, `AppConfig.dfy`, `ConfigTransaction.dfy` | latest-wins saving, drain, failure atomicity |
| `Context.dfy` | conversation compaction |
| `Downloader.dfy` | concurrent downloads, committing an artifact |
| `Vad.dfy` | voice activity detection |
| `ScreenCapture.dfy` | invalidating captured frames |
| `Memory.dfy` | searching and adding long-term memories |

## Where the code does less than one would expect

Each of these is stated as an exact condition or with a concrete run.

- `drain()` says it waits for all saves. One call never sleeps on at zero, but two calls under way
  together can leave one asleep for ever, because each finished save wakes only one of them
  (`SettingsService.StuckExactlyWithTwo`). The program has one caller, `ale-gui/src/lib.rs:35`.
- A push that cuts a frame drops the rest of it, and the next push starts a new frame at its first
  sample. For all contents of the two parts the down-mix survives exactly when the cut is at a frame
  boundary or what follows does not complete the frame that was cut (`UnalignedPushes.SplitExactly`);
  the resampled output survives exactly then, or when no output looks beyond the frames completed
  before the cut (`UnalignedPushes.OutputSplitsExactly`). A split can keep the number of frames and
  still change every one of them (`UnalignedPushes.SplitMovesFrames`).
- `next_sequence - start_sequence` is the buffer length exactly until the counters saturate
  (`SampleBuffer.SequenceNumbersExact`).
- A payload of at most 48 KiB that begins with the chunk magic would not be delivered as sent
  (`SecureChannel.RoundTripExactly`). The program sends only JSON, whose text cannot begin with "A",
  so its messages are always delivered within the two limits (`SecureChannel.JsonDelivered`).
- A cloud or backup credential made of white space is not read back (`AppConfig.LoadedIsSaved`).
- The failure of the daemon's first start counts, but sets no back-off: the next start may follow at
  once. Every other failure sets one (`SupervisorRuns.BacksOffExactly`, `SupervisorRuns.FirstRetryAtOnce`).
- An instance that connects and then does not authenticate or acknowledge its configuration in time
  is told to die and not waited for; another may be started meanwhile. These are exactly the ones
  that are neither owned nor seen to exit (`SupervisorRuns.EveryRun`, `SupervisorRuns.GivenUpIsReplaced`).
- Health verdicts of one instance are kept for three seconds, but a committed configuration forgets
  them (`SupervisorRuns.VerdictsApart`, `SupervisorRuns.VerdictsAroundCommit`).
- A frame from before a suspension can be served after exactly a multiple of 2^64 changes of the
  generation (`ScreenCapture.ServedExactly`, `ScreenCapture.StaleFrameServed`).
- A prompt takes the last ten messages. A conversation of more messages that stays below the
  compaction threshold has no summary, so its older messages are in neither
  (`Context.PromptLosesExactly`, `Context.ShortMessagesForgotten`).
- The comment on the token estimate says about two tokens for a Chinese character; the two further
  bytes of each are counted like other text, which makes it two and a half (`Context.ChineseTokens`).
- One download can start after the caller gave up: exactly when its test of the flag had passed
  and it was about to start, and then exactly that one (`Downloader.LateStartExactly`,
  `Downloader.LateInRun`; the shortest such run is `Downloader.LateStart`).
- The partial file of a failed download stays behind exactly when removing it fails too
  (`Downloader.ArtifactFile.Download`).

## Model

| member | source | states |
|---|---|---|
| JobProtocol.NeverRejected | ale-modeld/src/main.rs:196-219 | In every reachable state of the two processes with a live connection, the daemon admits the Schedule it takes next, no busy or duplicate refusal is on its way back, and the daemon's table is covered by the client's entries |
| JobProtocol.TableIsCovered | ale-gui/src/modeld.rs:536-578 | Every daemon entry has a pending client entry that holds its job slot and at least as many bytes |
| JobProtocol.AdmissionSucceeds | ale-modeld/src/main.rs:197-204 | Under the global invariant the daemon's duplicate, count and byte checks all pass |
| JobProtocol.StepInv | ale-gui/src/modeld.rs:493-622 | Each of the 17 atomic actions of client, channels and daemon keeps the invariant linking both processes and every message in flight |
| JobProtocol.RunInv | ale-gui/src/modeld.rs:189-280 | Hence so does every run, whatever is called, dropped, timed out, cancelled or completed |
| JobProtocol.PermitsConserved | ale-gui/src/modeld.rs:536-578 | Free job slots plus those of entering and pending calls are 32, and likewise the bytes, in every reachable state |
| JobProtocol.SlotRelease | ale-gui/src/modeld.rs:63-83 | A slot comes free only if its Schedule was not written, its own reply is read, or the transport is retired |
| JobProtocol.ForsakenForever | ale-gui/src/modeld.rs:230-241 | A Schedule whose slot came free before it was written is never written in any continuation |
| JobProtocol.ResolvedOnce | ale-gui/src/modeld.rs:209-212 | In every continuation of every run a known outcome stays the same until the call is over, and a call that is over stays over |
| JobProtocol.ReplyMatchesStage | ale-gui/src/modeld.rs:503-510 | A stage is resolved only by a reply to that stage, so a late reply never resolves a later one |
| JobCompletion.QuietMeansFree | ale-gui/src/modeld.rs:493-622 | No permit leaks: a quiet live connection has all 32 slots and the whole byte budget back, however many calls were dropped, refused, cancelled or answered |
| JobCompletion.WaiterOwnsEntry | ale-gui/src/modeld.rs:275-279 | A waiting call always owns the entry through which a reply, a removal or the drain tells it, so draining leaves nobody waiting |
| JobCompletion.CompleteStep | ale-gui/src/modeld.rs:189-280 | Every step keeps each Schedule listed where its journey says, and each pending entry on its way to removal |
| JobAnswers.ReplyReachesCaller | ale-gui/src/modeld.rs:209-212 | In every reachable state a reply that is read reaches the call that waits for it, as a reply, and gives its entry's permits back |
| JobAnswers.FailureOnlyWithoutReply | ale-gui/src/modeld.rs:209-217 | A waiting caller is told of a failure only by a removal task, a rollback, or the drain of a dead connection |
| JobAnswers.UndisturbedJobIsAnswered | ale-gui/src/modeld.rs:493-622 | From every quiet live state every job whose frame and reply fit the limits can run undisturbed from call to reply, and every permit is back |
| JobAnswers.RefusedExactly | ale-gui/src/modeld.rs:533-560 | Exactly when a call is let in or refused, in terms of the slots and bytes that others hold |
| JobAnswers.RegisteredExactly | ale-gui/src/modeld.rs:562-598 | What registering leaves in map and queue, case by case |
| JobAnswers.WaitingIsWritten | ale-gui/src/modeld.rs:230-246 | The message of a call that still waits is written when its turn comes |
| JobAnswers.DroppedNeverWritten | ale-gui/src/modeld.rs:234-241 | A job whose caller goes away before it is written is never written, in any continuation |
| JobClient.RegisterValid | ale-gui/src/modeld.rs:562-598 | Registering a call, refused or not, queued or not, keeps permits conserved and the tables matched |
| JobClient.RemoveValid | ale-gui/src/modeld.rs:209-217 | Removing an entry keeps the client valid, returns exactly its permits and tells at most its own caller |
| JobClient.DrainStep | ale-gui/src/modeld.rs:275-279 | Draining one entry keeps the account of what is left and who was told |
| ModeldClient.Connection.BeginCall | ale-gui/src/modeld.rs:533-560 | The checks in their order and the two permits, as the step function says |
| ModeldClient.Connection.RegisterCall | ale-gui/src/modeld.rs:562-598 | Insertion and queueing under the lock of the pending map |
| ModeldClient.Connection.RollBackCall | ale-gui/src/modeld.rs:592-597 | A call the writer queue refused gives everything back |
| ModeldClient.Connection.DropCall | ale-gui/src/modeld.rs:63-83 | A queued Schedule keeps its entry and is to be cancelled, anything else leaves a removal behind |
| ModeldClient.Connection.WriterReceives | ale-gui/src/modeld.rs:230-241 | The writer skips and removes a message nobody waits for |
| ModeldClient.Connection.ReaderEnds | ale-gui/src/modeld.rs:197-213 | A reply removes its entry, resolves its caller and returns the frame's reservation |
| ModeldClient.Connection.RetireAndDrain | ale-gui/src/modeld.rs:624-633 | Retiring empties the pending map, tells every waiter and loses no permit |
| JobDaemon.EveryRun | ale-modeld/src/main.rs:182-252 | Against any client: table and jobs match, the byte counter is the exact sum, both limits hold, at most one cancel per job is accepted, and Schedules taken equal answers plus running jobs |
| JobDaemon.KeysAreRunningJobs | ale-modeld/src/main.rs:205-219 | The cancellation table's keys are exactly the running job ids |
| JobDaemon.FinishedInv | ale-modeld/src/main.rs:248-252 | A finishing job is in the table and the saturating subtraction never saturates |
| JobDaemon.ReservationKept | ale-modeld/src/main.rs:220-234 | A cancelled job keeps its reservation until it finishes or the loop ends |
| DaemonAnswers.RefusedExactly | ale-modeld/src/main.rs:197-204 | A Schedule is a duplicate exactly if a job of its id runs, and finds the daemon busy exactly if 32 jobs run or the bytes exceed 128 MiB |
| DaemonAnswers.ScheduleAnswered | ale-modeld/src/main.rs:196-219 | A Schedule is answered at once exactly if it is refused, and otherwise runs |
| DaemonAnswers.CancelAnswered | ale-modeld/src/main.rs:220-234 | A Cancel is reported as accepted exactly if a job of that id runs and was not signalled before; that job is signalled and no other |
| DaemonAnswers.AcceptedOnce | ale-modeld/src/main.rs:223-229 | Over every run, between two Cancels of one id that are reported as accepted a job of that id ends |
| DaemonAnswers.FinishAnswered | ale-modeld/src/main.rs:248-252 | A job that ends is answered under its own id, as cancelled only after an accepted Cancel |
| DaemonAnswers.ControlAnswered | ale-modeld/src/main.rs:235-245 | Shutdown ends every job and is acknowledged |
| ServeConnection.SelectLoop.Receive | ale-modeld/src/main.rs:193-247 | The message branches compute the specified state and reply |
| ServeConnection.SelectLoop.Cancel | ale-modeld/src/main.rs:220-234 | The Cancel branch: replaced sender, kept bytes, and what it reports |
| ServeConnection.SelectLoop.Finished | ale-modeld/src/main.rs:248-252 | The completion branch |
| SupervisorRuns.EveryRun | ale-gui/src/modeld.rs:748-804 | Over every run: never a current and a retired instance together, blocked exactly at three failures and then without an instance, the current one configured exactly as committed; an instance that connected is owned or was seen to exit exactly if it ever acknowledged a configuration |
| SupervisorRuns.ReplacedOnlyAfterExit | ale-gui/src/modeld.rs:903-949 | When a new instance becomes current, the earlier ones that were seen to exit are exactly those that ever acknowledged a configuration |
| SupervisorRuns.GivenUpIsReplaced | ale-gui/src/modeld.rs:169-178 | A run in which an instance that connected but did not get through its start is replaced without its exit having been seen |
| Supervisor.SupervisedClient.UpdateConfigOn | ale-gui/src/modeld.rs:659-684 | Commits only what the daemon acknowledged, and retires a daemon that did not |
| Supervisor.SupervisedClient.Connection | ale-gui/src/modeld.rs:903-949 | The bound instance, the live current one, or what the start gives, and None exactly otherwise; with retirement, exit, block and back-off in that order |
| SupervisorAnswers.ConnectGives | ale-gui/src/modeld.rs:903-949 | In every reachable state: who asks gets the live instance, or a new one exactly if the last exit was seen, fewer than three failures were counted and the start succeeds; and what counts as a failure |
| SupervisorAnswers.LeavesExactly | ale-gui/src/modeld.rs:748-804 | Exactly for which reasons the current instance is given up |
| SupervisorAnswers.UnblocksExactly | ale-gui/src/modeld.rs:874-883 | A committed configuration and the user's retry end a block and clear the failures, and what a refused one leaves alone |
| SupervisorAnswers.FailuresCount | ale-gui/src/modeld.rs:1053-1065 | Each failure counts one, the third blocks, and the next start waits 1, 2, 4 seconds |
| HealthChecks.ThreeStrikes | ale-gui/src/modeld.rs:780-790 | Over any series of checks an instance stays current exactly while no three in a row failed |
| HealthChecks.MinuteForgives | ale-gui/src/modeld.rs:770-779 | A good check clears the failures exactly when the unbroken good series lasts a minute |
| SupervisorRuns.BacksOffExactly | ale-gui/src/modeld.rs:1053-1065 | In every reachable state: each possible start attempt waits one, two or four seconds since the last failure, if and only if that is not the failed first start with no instance since and no second passed |
| SupervisorRuns.FirstRetryAtOnce | ale-gui/src/modeld.rs:704-724 | After a failed first start the next one follows in the same second |
| Supervisor.SupervisedClient.RecordHealthOf | ale-gui/src/modeld.rs:760-803 | The verdict is kept; three failed checks or a dead connection retire the instance; a minute of health clears the budget |
| SupervisorRuns.VerdictsApart | ale-gui/src/modeld.rs:748-754 | In every run two recorded verdicts about one instance are at least three seconds apart, unless a configuration was committed between them |
| SupervisorRuns.VerdictsAroundCommit | ale-gui/src/modeld.rs:674-680 | A commit after which the next verdict may follow at once |
| HealthChecks.VerdictRepeated | ale-gui/src/modeld.rs:750-754 | A verdict is repeated for less than three seconds |
| HealthChecks.NextCheckAllowed | ale-gui/src/modeld.rs:750-754 | After three seconds a new one may be made |
| Supervisor.SupervisedClient.RecordResultOf | ale-gui/src/modeld.rs:951-965 | A failed request on a dead current connection counts as a process failure |
| Supervisor.SupervisedClient.RetryAfterUserRequest | ale-gui/src/modeld.rs:875-883 | Only a blocked supervisor is reset |
| SenseVoice.EveryRun | ale-modeld/src/sensevoice.rs:134-246 | Under cancellation at any await, failed kills and maintenance: every worker not seen to exit has exactly one owner, and there is at most one |
| SenseVoice.SpawnedOnlyAfterExit | ale-modeld/src/sensevoice.rs:134-200 | A process is started only when every earlier one was seen to exit |
| SenseVoice.MaintenanceSparesActive | ale-modeld/src/sensevoice.rs:70-89 | Idle maintenance changes nothing while a transcription owns a worker |
| SenseVoice.WorkedByItsModel | ale-modeld/src/sensevoice.rs:134-246 | Over every run a transcription is done by a worker of the model it is for |
| SenseVoice.ReusedExactly | ale-modeld/src/sensevoice.rs:134-165 | A retired worker is cleared first; the idle one is used exactly if it runs and is of the model; otherwise it is evicted |
| SenseVoice.KeptExactly | ale-modeld/src/sensevoice.rs:223-245 | A worker that did its work is kept, one that failed is killed and retired until its exit is seen |
| SenseVoice.MaintainedExactly | ale-modeld/src/sensevoice.rs:70-89 | Maintenance forgets exactly the exited retired workers and retires exactly an expired idle one |
| SenseVoice.SenseVoiceAdapter.Step | ale-modeld/src/sensevoice.rs:134-246 | Every segment of a transcription between two awaits is the specified step |
| SenseVoice.SenseVoiceAdapter.UnloadIfIdle | ale-modeld/src/sensevoice.rs:70-89 | The retain loop and the eviction of an expired idle worker |
| Llama.EveryRun | ale-modeld/src/llama.rs:410-625 | The slot owns the one worker not seen to exit; a worker in use is active and not told to stop |
| Llama.ReplacedOnlyAfterExit | ale-modeld/src/llama.rs:495-534 | A replacement is spawned only after every earlier exit was seen, and maintenance never stops a worker in use |
| Llama.AnsweredByItsModel | ale-modeld/src/llama.rs:410-494 | Over every run a request is answered by a worker of the model it is for, not told to stop |
| Llama.ReusedExactly | ale-modeld/src/llama.rs:728-730 | A worker is used at once exactly if it is of the model, runs and was not told to stop; otherwise it is stopped first |
| Llama.KeptHot | ale-modeld/src/llama.rs:126-134 | A worker that answered stays, unused, for the next request of its model |
| Llama.ExpiredExactly | ale-modeld/src/llama.rs:226-240 | Maintenance stops exactly an expired worker that nobody uses or waits for |
| Llama.LlamaAdapter.Step | ale-modeld/src/llama.rs:410-625 | Every segment between two awaits of a request, and idle maintenance, is the specified step |
| Resampler.ResampleCharacterised | ale-gui/src/audio.rs:246-255 | Output k exists exactly when position k*step has a right neighbour, and is the interpolation there |
| Resampler.SplitInvariance | ale-gui/src/audio.rs:236-264 | For any split into frame-aligned pushes the output is that of one push, the batch resampling of the down-mix |
| Resampler.StreamIsBatch | ale-gui/src/audio.rs:236-264 | For any pushes at all the output is one batch over the frames that were kept, and at most one sample is retained |
| Resampler.OutputFitsCapacity | ale-gui/src/audio.rs:246-249 | No push outgrows the capacity reserved for it |
| Resampler.TotalCountsEach | ale-gui/src/audio.rs:238-241 | Every sample of a frame counts once and alike |
| Resampler.MeanOfEqual | ale-gui/src/audio.rs:238-241 | The mean of equal samples is that sample |
| Resampler.AtSample | ale-gui/src/audio.rs:248-251 | On a sample the output is that sample |
| Resampler.AtProportion | ale-gui/src/audio.rs:248-251 | Between two samples it moves in proportion to the distance |
| UnalignedPushes.SplitExactly | ale-gui/src/audio.rs:236-241 | For all contents of two parts of given lengths: the down-mix survives the split if and only if the cut is at a frame boundary or completes no frame |
| UnalignedPushes.OutputSplitsExactly | ale-gui/src/audio.rs:236-264 | The same for the output after any earlier pushes, with the one further case that no output looks beyond the frames before the cut |
| UnalignedPushes.SplitFrameCount | ale-gui/src/audio.rs:239-241 | Exactly when the number of frames survives, which is not the same |
| UnalignedPushes.SplitMovesFrames | ale-gui/src/audio.rs:239-241 | A split that keeps the number and changes every frame |
| Resampler.UnalignedPushLosesFrame | ale-gui/src/audio.rs:239-243 | A concrete pair of pushes that loses one |
| Resampler.InputNormalizer.PushInterleaved | ale-gui/src/audio.rs:236-264 | The in-place push computes the specified state and output |
| Resampler.InputNormalizer.MixDown | ale-gui/src/audio.rs:239-243 | The averaging loops compute the mean of every complete frame |
| Resampler.InputNormalizer.Interpolate | ale-gui/src/audio.rs:246-255 | The output loop ends for every rate, indexes in range, and computes all samples the buffer allows |
| SampleBuffer.PushHolds | ale-gui/src/audio.rs:284-292 | After any stream the buffer is its last `capacity` samples, with the right sequence numbers |
| SampleBuffer.SequenceNumbersExact | ale-gui/src/audio.rs:284-292 | Exactly when next - start is the length |
| SampleBuffer.ReadGetsSuffix | ale-gui/src/audio.rs:294-300 | A reader gets all that is new, or the retained suffix if it lags |
| SampleBuffer.ReaderSeesEverything | ale-gui/src/audio.rs:294-300 | Over any run a reader that never lags receives the stream once, in order, without a gap |
| SampleBuffer.CaptureHoldsLatest | ale-gui/src/audio.rs:212-215 | After aligned pushes the recorder holds the last samples of the batch resampling of the whole input |
| SampleBuffer.CaptureState.PushInterleaved | ale-gui/src/audio.rs:212-215 | Resampler and buffer together stay the image of everything pushed |
| SampleBuffer.Buffer.Append | ale-gui/src/audio.rs:284-292 | The in-place append is the specified push |
| SampleBuffer.Buffer.SamplesSince | ale-gui/src/audio.rs:294-300 | The clamped cursor read |
| SecureChannel.ReassemblySound | ale-gui/src/remote_crypto.rs:61-147 | Over arbitrary frames: what is delivered is one plaintext or the bodies of chunks 0..total-1 of one message, consecutive among those that decrypted, within the limit |
| SecureChannel.PartialBounded | ale-gui/src/remote_crypto.rs:61-147 | A partial message is a proper beginning within the limit, and its counters cannot overflow |
| SecureChannel.ErrorDropsPartial | ale-gui/src/remote_crypto.rs:66-132 | An error keeps a partial message exactly if the frame was oversize or rejected by the transport |
| SecureChannel.AcceptedExactly | ale-gui/src/remote_crypto.rs:61-147 | Over arbitrary frames: a frame is accepted exactly if it gets through, is what may come next and keeps the limit, and what it then delivers or leaves; nothing interrupts a message |
| SecureChannel.WireFormat | ale-gui/src/remote_crypto.rs:40-45 | The bytes of a chunk: magic, id, index, total, most significant first |
| SecureChannel.RoundTripExactly | ale-gui/src/remote_crypto.rs:24-49 | The frames of a message deliver it with the last frame and not before, exactly under the stated limits |
| SecureChannel.JsonDelivered | ale-gui/src/remote_crypto.rs:24-49 | A payload that does not begin like the magic, as JSON never does, is delivered exactly when it is within the two limits |
| SecureChannel.FramesFit | ale-gui/src/remote_crypto.rs:51-59 | Every frame of a message is within the receiver's frame limit |
| SecureChannel.ChunkRoundTrip | ale-gui/src/remote_crypto.rs:33-46 | The chunk header decodes to what was encoded |
| SecureChannel.Channel.EncryptMessage | ale-gui/src/remote_crypto.rs:24-49 | The chunking loop produces the specified frames |
| SecureChannel.Channel.DecryptFrame | ale-gui/src/remote_crypto.rs:61-147 | The in-place reassembly is the specified step, error by error |
| SettingsService.EveryRun | ale-gui/src/settings_service.rs:43-123 | Over all interleavings of all services: executed saves are increasing, superseded ones gave way to later ones and never ran, a service at rest last ran the last submission, tickets equal unfinished requests |
| SettingsService.QuiescentRanLast | ale-gui/src/settings_service.rs:56-82 | An open service at rest holds no request and ran the last one |
| SettingsService.DrainReturnsAtZero | ale-gui/src/settings_service.rs:11-19 | A drain call that returns does so with no request held anywhere |
| SettingsService.StuckExactlyWithTwo | ale-gui/src/settings_service.rs:11-27 | A drain call can be left asleep at zero if and only if two of them may be under way |
| SettingsService.OneDrainerNeverStuck | ale-gui/src/settings_service.rs:11-27 | With one drain call at a time that never happens |
| SettingsService.SaveService.SubmitSave | ale-gui/src/settings_service.rs:91-114 | The slot is replaced and the replaced request reported, or the lock is held elsewhere and nothing changes |
| SettingsService.SaveService.WorkerTurn | ale-gui/src/settings_service.rs:54-83 | Each turn of the worker is one specified action, and it rests only without a permit |
| ConfigTransaction.SaveTransaction | ale-gui/src/settings_service.rs:125-151 | For any faults: success, which comes exactly if everything works, leaves credentials, file, memory and supervisor at the new configuration; every error but the two rollback failures leaves all of them at the old one; and which error it is |
| ConfigTransaction.ConfigManager.UpdateConfig | ale-core/src/config.rs:368-428 | The same for the three credential slots, the file and memory; the written file has no credential |
| ConfigTransaction.ConfigFile.AtomicWrite | ale-core/src/config.rs:8-42 | The target changes wholly, exactly if every step works, or not at all; when a temporary file stays |
| AppConfig.LoadedIsSaved | ale-core/src/config.rs:323-345 | Exactly which saved configurations are loaded back unchanged |
| AppConfig.FileHidesCredentials | ale-core/src/config.rs:47-56 | Configurations that differ only in credentials are written as the same file |
| AppConfig.SlotsHoldCredentials | ale-core/src/config.rs:379-395 | Each slot holds exactly its own credential, or nothing |
| Context.TranscriptRefined | ale-core/src/context.rs:328-385 | After any messages the conversation is the part of history not summarised, its token count is exact, the summary is the clip of the ideal full summary, and the budget or the length bound holds |
| Context.CompactRefines | ale-core/src/context.rs:328-385 | One compaction keeps that and restores the bound |
| Context.ClipAbsorbs | ale-core/src/context.rs:368-384 | Clipping a clipped summary after appending is clipping the whole |
| Context.FullAppends | ale-core/src/context.rs:337-366 | Summaries of two stretches join into the summary of both |
| Context.CompactExactly | ale-core/src/context.rs:328-338 | Compaction happens exactly from the threshold on with nine entries, and keeps the last six |
| Context.ThresholdExact | ale-core/src/context.rs:329-331 | The threshold is seventy per cent, rounded down |
| Context.ClipMeaning | ale-core/src/context.rs:368-384 | Up to 1500 characters are kept, of more the last 1500 behind three dots |
| Context.LineTells | ale-core/src/context.rs:343-360 | A line tells the speaker and, up to 100 characters, the whole message |
| Context.AsciiTokens | ale-core/src/context.rs:398-402 | Plain text takes one token per four characters |
| Context.ChineseTokens | ale-core/src/context.rs:397-402 | Chinese text takes two and a half tokens a character |
| Context.TokensAppend | ale-core/src/context.rs:398-402 | Estimating in two parts loses at most one token |
| Context.PromptLosesExactly | ale-core/src/context.rs:285-303 | Exactly which entries are in neither the summary nor the recent messages of a prompt: those between the summarised ones and the last ten; none from the threshold on |
| Context.ShortMessagesForgotten | ale-core/src/context.rs:293-303 | In a long conversation below the threshold all but the last ten messages are in neither |
| Context.ContextManager.MaybeCompact | ale-core/src/context.rs:328-385 | The in-place compaction is the specified one |
| Context.ContextManager.PopFront | ale-core/src/context.rs:340-364 | The popping loop: rendered lines, remaining entries, saturating count |
| Context.ContextManager.AddUserMessage | ale-core/src/context.rs:120-130 | The object stays where its history leads |
| Context.ContextManager.AddAssistantMessage | ale-core/src/context.rs:133-143 | Likewise for the assistant |
| Context.ContextManager.AddUserMessageWithImage | ale-core/src/context.rs:146-156 | Likewise, with 100 tokens for the image |
| Context.ContextManager.AddFrameSummary | ale-core/src/context.rs:159-171 | The visual memory is the last five frames of those that do not repeat their predecessor |
| Context.DistinctNeighbours | ale-core/src/context.rs:160-165 | No two neighbours in it have the same description |
| Context.ContextManager.Clear | ale-core/src/context.rs:405-411 | Conversation, summary, visual memory and both token counts are reset |
| Downloader.Supervised | ale-core/src/downloader.rs:682-717 | Every index is not started, active or finished, in exactly one of them; at most `max` are active; at most one starts after the flag was set |
| Downloader.LateStartExactly | ale-core/src/downloader.rs:683-699 | Once the flag is set a further transfer starts in some continuation if and only if its test had passed, and then exactly that one starts in every continuation that moves on |
| Downloader.LateInRun | ale-core/src/downloader.rs:683-699 | The same over whole runs, from the step that first sets the flag |
| Downloader.LateStart | ale-core/src/downloader.rs:683-699 | A run of three steps with a late start |
| Downloader.NothingStartsAfter | ale-core/src/downloader.rs:683-699 | After a failure, or once the flag was seen, nothing starts |
| Downloader.Concluded | ale-core/src/downloader.rs:700-723 | The end comes with nothing active; the error is the first observed one or the cancellation; path i belongs to input i |
| Downloader.UndisturbedAnswer | ale-core/src/downloader.rs:677-723 | A batch nobody leaves succeeds exactly if every transfer does, with their paths in order, and otherwise fails with the error of one |
| Downloader.BatchSupervisor.Supervise | ale-core/src/downloader.rs:677-723 | The loop terminates and is a run of the specified steps; left alone it succeeds exactly if every transfer does |
| Downloader.ArtifactFile.Download | ale-core/src/downloader.rs:234-308 | The target is replaced exactly when the whole pinned content arrived and nothing failed; the partial file is left exactly when a download that created it fails and its removal fails too |
| Downloader.ArtifactFile.Receive | ale-core/src/downloader.rs:258-291 | The receiving loop never keeps more than the pinned size |
| Downloader.MatchesExactly | ale-core/src/downloader.rs:285-297 | A content matches exactly if it has the pinned length and its hash the pinned digits in either case |
| Vad.DetectorExplained | ale-core/src/vad.rs:95-137 | For every frame sequence state and counters are what the trailing runs since the last reset say |
| Vad.StateIsUnique | ale-core/src/vad.rs:95-137 | That description determines the detector |
| Vad.EndedMeaning | ale-core/src/vad.rs:120-129 | A reported end follows exactly enough silent frames, after a speech frame of an utterance begun by enough speech frames |
| Vad.ReportsApart | ale-core/src/vad.rs:95-137 | Two reports are at least max(1,start)+max(1,end)+1 frames apart |
| Vad.CycleFollowed | ale-core/src/vad.rs:108-136 | Silent, Speaking, SpeechEnded, Silent; a report lasts one frame; counters stay within their limits |
| Vad.SplitAudio | ale-core/src/vad.rs:167-182 | Audio may be cut at any multiple of the frame size |
| Vad.FrameBitAt | ale-core/src/vad.rs:174-178 | Bit k tells of frame k for every complete frame; a shorter last piece is not heard |
| Vad.StampAt | ale-core/src/vad.rs:174-178 | Report k stands at the beginning of frame k |
| Vad.IsSpeechIsRms | ale-core/src/vad.rs:139-146 | The speech test is the comparison of the root mean square |
| Vad.VoiceActivityDetector.ProcessFrame | ale-core/src/vad.rs:95-137 | The in-place step is the specified one |
| Vad.VoiceActivityDetector.ProcessAudioChunks | ale-core/src/vad.rs:167-182 | Every complete frame is processed and reported with its offset |
| ScreenCapture.ServedUnsuspended | ale-gui/src/screen_capture.rs:217-228 | With fewer than 2^64 changes, a served frame saw no suspension during its capture nor up to the reader's read of the generation |
| ScreenCapture.ServedExactly | ale-gui/src/screen_capture.rs:217-228 | For any number of changes: a stored frame is served exactly if the counts are congruent modulo 2^64 |
| ScreenCapture.StaleFrameServed | ale-gui/src/screen_capture.rs:344-348 | A run of 2^64 changes that serves a frame from before a suspension |
| ScreenCapture.OnlyNeededChanges | ale-gui/src/screen_capture.rs:337-353 | The generation changes by one, only in a toggling pass, and only to the parity asked for |
| ScreenCapture.ToggleTookEffect | ale-gui/src/screen_capture.rs:337-353 | A toggling call that returns saw the state it asked for after it began |
| ScreenCapture.UndisturbedToggle | ale-gui/src/screen_capture.rs:337-353 | An undisturbed toggling call does what it is asked in one pass |
| ScreenCapture.UndisturbedCapture | ale-gui/src/screen_capture.rs:158-228 | An undisturbed capture is served, with its very image |
| ScreenCapture.ScreenCaptureManager.SetCaptureSuspended | ale-gui/src/screen_capture.rs:337-353 | The compare-exchange loop against interference and spurious failure |
| ScreenCapture.ScreenCaptureManager.CapturePrimaryMonitor | ale-gui/src/screen_capture.rs:259-327 | Exactly when a capture is accepted |
| ScreenCapture.ScreenCaptureManager.LatestFrame | ale-gui/src/screen_capture.rs:217-228 | What a reader returns when the counter and the frame change under it |
| ScreenCapture.ScreenCaptureManager.SetSuspended | ale-gui/src/screen_capture.rs:208-214 | Among concurrent togglers and captures: the state asked for took effect during the call, and the frame is dropped unless its slot is locked |
| ScreenCapture.LeftFrameNotServed | ale-gui/src/screen_capture.rs:208-228 | A frame left in a locked slot is not served after the suspension, short of 2^64 changes |
| Memory.SelectionAgrees | ale-core/src/memory.rs:263-273 | Whatever order selection and sorting leave equal scores in, the scores are the first positive ones of a full sort |
| Memory.SortsAgree | ale-core/src/memory.rs:268-268 | Any two full sorts list the same scores |
| Memory.NoneTwice | ale-core/src/memory.rs:241-274 | No memory is returned twice |
| Memory.MatchesComeFirst | ale-core/src/memory.rs:254-259 | One more matched term always ranks higher than any importance |
| Memory.ImportanceDecides | ale-core/src/memory.rs:254-259 | Between equally many matches the importance decides |
| Memory.MemoryStore.Search | ale-core/src/memory.rs:241-274 | Both together, for the positions the search returns, against every full sort |
| Memory.Best | ale-core/src/memory.rs:263-273 | Select, truncate, sort, then filter and take |
| Memory.BatchMeaning | ale-core/src/memory.rs:201-217 | A batch is refused exactly for an unacceptable entry; otherwise nothing is lost, nothing is doubled and nothing is left out |
| Memory.NormalizeMeaning | ale-core/src/memory.rs:277-301 | Exactly which memories are acceptable, and that content is trimmed and importance moved into range and nothing else |
| Memory.SameExactly | ale-core/src/memory.rs:609-611 | Two memories are the same exactly if their contents are equal up to case |
| Memory.MemoryStore.AddMany | ale-core/src/memory.rs:201-217 | One commit: an error leaves store and file unchanged, and store and file always agree |
| Memory.MemoryStore.Delete | ale-core/src/memory.rs:219-233 | Reports whether there was one, and deletes all of them, exactly when the store can be written |
| Memory.OthersMeaning | ale-core/src/memory.rs:221-229 | The length tells whether there was a memory with the id |
| Memory.OthersAppend | ale-core/src/memory.rs:221-226 | What is left keeps its order and number |

## Left out

- Noise encryption, hashing, base64, protobuf and JSON: a frame is a byte count with a plaintext or a rejection, a message a kind, an id and sizes, a hash a function parameter.
- The daemon's scheduler: `scheduler.handle` is an eventual reply under the request's own id. Replies on the wire that no daemon step produced are not modelled.
- The bounded queues inside the two processes' transports and `ReplyQueue`'s budget: each channel is one FIFO queue, and a full queue or budget is a possible failure of any reply or read.
- Where a dropped waiter's Cancel comes from: any control call may be made at any time, which includes it. The uniqueness of a stage id is that of its call number.
- Deadlines and time-outs as durations: a wait may end at any time, and the kill itself is not modelled. The supervisor's own times are modelled.
- Supervisor.SupervisedClient.RecordHealthOf: the text of the last error, and the report a cached verdict carries, are left out.
- Cancelling the supervisor's own `update_config`, and a panic of the blocking configuration worker.
- AppConfig.LoadedIsSaved: loading's migration of legacy transcription settings and its feature-dependent normalisation are left out.
- The individual validation checks of a configuration: `acceptable` stands for all of them.
- SampleBuffer.CaptureHoldsLatest: not stated beyond 2^64 samples, where the sequence numbers have saturated.
- Resampler.SplitInvariance: the step is exact; rounding of the 64-bit floating position and samples is not modelled. Positions are counted in 1/16000 of a sample.
- Shutdown of the two native adapters, during which their own reaping may overlap a request, the text protocol with the workers, and the failed-model and capability gates before a worker is wanted.
- Context.TranscriptRefined: token arithmetic is unbounded, so an overflow of `max_tokens * 70` is not modelled; long-term memory in the prompt and the key elements of a frame are left out.
- Downloader.BatchSupervisor.Supervise: what one transfer does is an arbitrary outcome, the semaphore of the downloader included; progress reports, package consent and the destination reservation are left out.
- Vad.DetectorExplained: energies are exact reals, so floating-point rounding at the threshold is not modelled; the energy history and `adapt_threshold` are left out.
- Coordinate mapping, image scaling and JPEG encoding of captured frames.
- Memory.MemoryStore.Search: scores are exact reals and the searchable text arrives in lower case; term extraction, tag and timestamp normalisation, and loading the file are left out.
- Memory.Best: the standard library's selection and sort are represented by what they promise; the methods that stand for them sort by insertion.
- Risk tables, routing, cloud clients, user interface, microphone and speech output, and the server side of the phone connection.
