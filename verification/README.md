# A verified model of the TTS engine's arbitration, speech pipeline and protocols

The TTS engine lets many applications share one speaker. A manager (`TTSManager`) decides which session
holds the speaker, sessions hand speech requests to the speaker's queue, one worker thread drains that
queue into a media pipeline, and events travel back to the clients. This project models that core in
Dafny and proves what holds of it in every reachable state, over every order in which main-loop calls,
worker steps and deliveries can come.

Each part exists twice. A specification on values (a state, and one function for each call or for each
stretch between two lock points) carries the theorems. Beside it stand the objects as the program has
them, with their fields, loops and calls of each other; every method of theirs is proved equal to its
specification function.

| part of the program | specification and theorems | objects, loops |
|---|---|---|
| reservation arbiter (manager and sessions) | `Engine`, `Arbitration`, `ArbitrationLaws`, `AnswerCodes`, `SessionIds` | `EngineObjects` |
| speaker, queue, worker thread, pipeline | `Speaker`, `SpeechFates`, `SpeechCancellation`, `SplitCancels`, `StrayCancel`, `SpeechOutcomes`, `SpeakerRaces`, `FailingBuilds`, `PipelineLaws` | `SpeakerObject` |
| arbiter and speaker together | `EngineSpeech`, `EngineQueue`, `FineCalls`, `FineLosses`, `EngineRace` | `EngineObjects` |
| the client's mirrored resource flag | `ResourceMirror` | in the same module |
| event source, emitter | `EventDelivery`, `ResourceDelivery`, `Listeners` | `EventSource`, `Listeners` |
| text sanitising | `Isolated`, `Punctuation`, `Sanitizer` | in the same modules |
| configuration on the wire and in the cache | `Tokens`, `Decimal`, `Configuration`, `ConfigurationCache`, `ConfigurationLaws` | `ConfigurationObjects` |
| list of cancelled ids | `IdList` | in the same module |
| plugin supervision | `TaskHandoff`, `CrashLimiter` | `AsyncWorker`, `CrashLimiter` |

`Types` and `Sequences` hold what the others share.

What comes from outside is a parameter: which attempts to build a pipeline succeed (`Builds`), when bus
errors arrive, how a listener's call comes back (`Reply`), the clock (`now`), the width of the client's
`long` (`longMax`), which handles and timer ids the system gives out.

The main loop makes one call at a time, because remote calls are processed one at a time; the worker thread
moves whenever it can. The speaker's theorems let it move between any two things that calls do to the
speaker. `Engine` takes a manager's call as one step, and `FineCalls` and `FineLosses` carry its results over
to runs in which the worker moves inside calls. `SplitCancels` takes apart the cancelling call itself, whose test and
write no lock holds together.

## Where the code does less than it seems to

Each of these has a lemma with a concrete counterexample or an exact condition.

* An app that claims with nothing reserved and then reserves owns the speaker twice; destroying its session
  releases only the claim, and the destroyed session keeps the speaker. When the app comes back, two
  sessions have it (`ClaimAndReserveThenDestroyDuplicates`). A 32-bit session id that is reused while still
  in use breaks the two maps apart. Nothing else breaks the arbitration (`InvariantHoldsExactly`).
* The worker tests the queue and the pipeline flag, and pops later. It calls `front()` on an empty list
  exactly if the calls made since its test leave nothing queued (`PopFindsNothingExactly`,
  `RunIsUndefinedExactly`); a flush with a new request after it does no harm. An abort at that point of a
  quite ordinary run does it (`AbortAfterTestIsUndefined`), and so does asking for the pipeline and giving it
  up at once, with no speech at all (`FlagFlipIsUndefined`).
* While no pipeline can be built, a speech is started all the same exactly if a test no longer holds when the
  worker acts on it (`NothingIsStartedExactly`), as when a preemptive request's flush and push fall on either
  side of it (`PreemptionStarts`). The bound on attempts, and that every popped speech is answered, hold on
  every run.
* A speech popped but not yet marked as being spoken escapes the loss of the speaker (`HeldSpeechEscapes`).
* A cancelling call can miss the speech it found and interrupt the next: exactly if it stands between its
  test and its write when the first is reported or the next is popped (`StraysExactly`, `CancelStrays`). An
  abort, which holds the queue lock, cannot stray onto a later speech (`AbortsDoNotStray`).
* An event sent between the handler's test for emptiness and its clearing of the timer id stays in the queue
  until the next one is sent (`SendInGapIsStranded`, `NextSendRescues`). A client at rest is wrong about its
  resource exactly if an odd number of resource events is stranded so (`RightAtRestExactly`).
* Of adjacent symbols only every second is spelled out, so `$$` becomes `dollar$` (`PassReplacesExactly`). A
  quote that comes right after an erased one, or one character later, is not erased (`QuotesLeftExactly`),
  and one that the scan finds in the last place makes it read past the end (`ScanFailsExactly`).
* A configuration with a comma in any text is refused as a whole (`SettingsArriveExactly`). Caching while
  disconnected comes to the same as sending in turn, without commas, exactly if the end points are settled
  (`CachingRefinesSendingExactly`, `CommaFreeCachingRefinesExactly`, `CachingCanDiffer`). Setting back what was
  read pins the default voice (`ReadBackAndSet`).
* The text of a configuration whose last field is empty is refused, although an empty rate is meant to stand for
  50: splitting drops an empty last piece (`MissingNumbers`). A rate beyond 255 is taken modulo 256, so 306 becomes
  50 (`RatesWrapAround`).
* With a 32-bit `long` on the client, cancelled ids from 2^31 on arrive changed (`IdsArriveExactly`).
* `m_running` is not initialised; were it true, no task would ever start (`RunningFromTheStartStrands`).
* The comment on the crash limiter speaks of the last session's duration; the code measures the time between
  counted crashes, and so does the model.

## Model

| member | source | states |
|---|---|---|
| `Arbitration.InvariantHoldsExactly` | ttsengine/TTSManager.cpp:484-787 | In every state of a run the speaker is held by exactly the live session of the claiming app, else of the reserving app, while speech is enabled; it is the only session with the speaker set, every claimed app is live and the two maps agree: if and only if the run never reuses an id that is in use and never destroys, while enabled, the session of an app that both claimed and reserved |
| `Arbitration.StepKeepsExactly` | ttsengine/TTSManager.cpp:321-787 | Each single operation keeps that invariant, except exactly the two named ones |
| `Arbitration.CreateKeepsExactly` | ttsengine/TTSManager.cpp:484-533 | Creating a session keeps it if and only if the new id is not in use |
| `Arbitration.DestroyKeepsExactly` | ttsengine/TTSManager.cpp:555-599 | Destroying a session keeps it if and only if the app does not own the speaker twice while enabled |
| `Arbitration.ClaimKeeps` | ttsengine/TTSManager.cpp:734-787 | A claim keeps it and does not come back with the failure code |
| `Arbitration.ClaimNeverFails` | ttsengine/TTSManager.cpp:784-786 | So on every such run no claim fails, and after it only the owner's live session has the speaker |
| `ArbitrationLaws.LosesExactly` | ttsengine/TTSManager.cpp:321-787 | The complete list of calls by which a holder loses the speaker, with the guard of each |
| `ArbitrationLaws.ClaimIsExclusive` | ttsengine/TTSManager.cpp:655-787 | No reserve, claim, release or create of another app displaces a claimed holder or ends its claim |
| `ArbitrationLaws.ClaimTakesOver` | ttsengine/TTSManager.cpp:765-786 | A granted claim changes no book but the claim and sends one "released" and one "acquired" |
| `ArbitrationLaws.ReleaseHandsBack` | ttsengine/TTSManager.cpp:708-716 | Releasing a claim over another app's reservation sends the events that hand the speaker back |
| `ArbitrationLaws.ClaimThenReleaseRestores` | ttsengine/TTSManager.cpp:690-787 | Claiming over a reservation and releasing restores the whole state but the event history and the speaker's queue |
| `ArbitrationLaws.ClaimAndReserveThenDestroyDuplicates` | ttsengine/TTSManager.cpp:563-572 | The run after which two sessions have the speaker |
| `AnswerCodes.ClaimAnswersExactly` | ttsengine/TTSManager.cpp:734-787 | A claim is answered with "ok" if and only if the app is live and owns the speaker afterwards, and with "busy" if and only if a live app asks while another has the claim; any other answer than "ok" changes nothing |
| `AnswerCodes.ReserveAnswersExactly` | ttsengine/TTSManager.cpp:655-688 | A reservation is answered with "ok" if and only if the app has it afterwards, and with "busy" if and only if another has it |
| `AnswerCodes.ReleaseAnswersExactly` | ttsengine/TTSManager.cpp:690-732 | A release is answered with "ok" if and only if a claim of the app ends or nobody has the reservation afterwards; then the app has no claim; it fails exactly if the reservation is another's and there is no claim to end |
| `AnswerCodes.CreateAnswersExactly` | ttsengine/TTSManager.cpp:484-533 | A session is created if and only if the app has none; it is the next in number, and exactly one entry enters each map |
| `AnswerCodes.DestroyAnswersExactly` | ttsengine/TTSManager.cpp:555-599 | A session is destroyed if and only if the id is known; exactly its two entries go, and with the last one the wish for a pipeline |
| `AnswerCodes.SpeakAnswersExactly` | ttsengine/TTSSession.cpp:88-102 | A speech is accepted if and only if the session has the speaker and is configured; it is then the last accepted, in the session's name |
| `AnswerCodes.ShutAnswersExactly` | ttsengine/TTSSession.cpp:130-141 | Shutting up is answered by whether the session has the speaker; its own speech becomes due for interruption, and no other's |
| `AnswerCodes.NothingBeforeEnabling` | ttsengine/TTSManager.cpp:321-356 | On every run in which speech was never enabled no session ever gets the speaker and no client is sent a resource event |
| `SessionIds.IdsDiffer` | ttsengine/TTSManager.cpp:82-85 | The ids of sessions fewer than 2^32 apart differ |
| `SessionIds.IdsCountUp` | ttsengine/TTSManager.cpp:82-85 | The first sessions have the ids 1, 2, 3 and so on |
| `SessionIds.CreatingIsSafe` | ttsengine/TTSManager.cpp:484-533 | On every run, while fewer than 2^32 sessions were created, creating one never meets an id in use |
| `SessionIds.CleanExactly` | ttsengine/TTSManager.cpp:484-599 | Such a run keeps the arbitration's invariant throughout if and only if it never destroys the session of an app that, while enabled, both claimed and reserved |
| `EngineObjects.TTSManager.constructor` | ttsengine/TTSManager.cpp:258-265 | The manager starts disabled, with no owner and no session |
| `EngineObjects.TTSManager.EnableTTS` | ttsengine/TTSManager.cpp:321-356 | Equals the specification: enabling grants the speaker to the owner, disabling takes it from the active session |
| `EngineObjects.NextSessionId` | ttsengine/TTSManager.cpp:82-85 | The ids are 1, 2, ... with the wrap-around of an unsigned 32-bit counter |
| `EngineObjects.TTSManager.FindSessionOf` | ttsengine/TTSManager.cpp:491-500 | The loop finds a session of the app if and only if there is one |
| `EngineObjects.TTSManager.CreateSession` | ttsengine/TTSManager.cpp:484-533 | Equals the specification; a duplicate changes nothing, otherwise one new object enters both maps |
| `EngineObjects.TTSManager.DestroySession` | ttsengine/TTSManager.cpp:555-599 | Equals the specification: the app releases, both entries go, and with the last session the pipeline |
| `EngineObjects.TTSManager.MakeSessionActive` | ttsengine/TTSManager.cpp:618-626 | Equals the specification; a session that is active already is left alone |
| `EngineObjects.TTSManager.MakeActiveSessionInActive` | ttsengine/TTSManager.cpp:628-636 | Equals the specification |
| `EngineObjects.TTSManager.MakeReservedOrClaimedSessionActive` | ttsengine/TTSManager.cpp:638-653 | Equals the specification: the claiming app goes before the reserving one |
| `EngineObjects.TTSManager.ReservePlayerResource` | ttsengine/TTSManager.cpp:655-688 | Equals the specification, with the result code of each branch |
| `EngineObjects.TTSManager.ReleasePlayerResource` | ttsengine/TTSManager.cpp:690-732 | Equals the specification, with the result code of each branch |
| `EngineObjects.TTSManager.ClaimPlayerResource` | ttsengine/TTSManager.cpp:734-787 | Equals the specification, with the result code of each branch |
| `EngineObjects.TTSSession.SetActive` | ttsengine/TTSSession.cpp:212-227 | Sets the speaker and sends "acquired", once |
| `EngineObjects.TTSSession.SetInactive` | ttsengine/TTSSession.cpp:229-243 | Clears the session's speeches from the speaker, drops it and sends "released", once |
| `EngineObjects.TTSSession.AbortAndClearPending` | ttsengine/TTSSession.cpp:143-151 | Clears the session's speeches, and no others, from the speaker, and sends their ids in one event if that event was asked for and there are any |
| `EngineObjects.TTSSession.Cancelled` | ttsengine/TTSSession.cpp:307-325 | The event is sent if it was asked for and there are ids, and holds them as printed |
| `EngineObjects.TTSSession.Speak` | ttsengine/TTSSession.cpp:88-102 | A session with the speaker is answered with "ok" if and only if one of its two end points is set, and the speaker then takes the speech; any other session is refused, and changes nothing |
| `EngineObjects.TTSSession.Shut` | ttsengine/TTSSession.cpp:130-141 | Cancels if and only if the session is the one being spoken for |
| `EngineObjects.CallSpeak` | ttsengine/TTSSession.cpp:88-102 | A client's request moves the whole engine as specified |
| `EngineObjects.CallShut` | ttsengine/TTSSession.cpp:130-141 | The same for shutting up |
| `EngineObjects.CallAbortAndClearPending` | ttsengine/TTSSession.cpp:143-151 | The same for aborting |
| `SpeechFates.EachSpeechInOnePlace` | ttsengine/TTSSpeaker.cpp:167-832 | Over every interleaving each accepted speech is in exactly one place: queued, in the worker's hand, flushed, in one cancelled batch, or reported once |
| `SpeechFates.ReportsFollowRequests` | ttsengine/TTSSpeaker.cpp:284-301 | The reported speeches are a subsequence of the accepted ones |
| `SpeechCancellation.InterruptedIffCancelled` | ttsengine/TTSSpeaker.cpp:229-282 | On every run with cancels in one step, a report says "interrupted" if and only if a cancelling call came between the speech's start and its report |
| `SpeechCancellation.CancelledIsReportedNext` | ttsengine/TTSSpeaker.cpp:816-825 | Whatever calls come in, a speech due for cancellation is what the worker reports next, and as interrupted |
| `SplitCancels.InterruptedIffWritten` | ttsengine/TTSSpeaker.cpp:229-282 | On every run, with the worker moving between test and write of any cancelling call: a report says "interrupted" if and only if a write landed between the pop of its speech and the report |
| `SplitCancels.StraysExactly` | ttsengine/TTSSpeaker.cpp:229-236 | When a cancel strays onto a speech for which none was made, and when it misses the one it was made for: exactly if it stood between test and write at the pop, or at the report; in all other cases "interrupted" means cancelled |
| `SplitCancels.AbortsDoNotStray` | ttsengine/TTSSpeaker.cpp:204-218 | No speech is popped while an aborting session stands between test and write |
| `SplitCancels.UninterruptedCallsDoNotStray` | ttsengine/TTSSpeaker.cpp:229-236 | If the worker never moves inside a call, "interrupted" means exactly that a call found the speech being spoken |
| `SplitCancels.SingleStepsAreUninterrupted` | ttsengine/TTSSpeaker.cpp:204-236 | The speaker with calls in single steps is that special case |
| `StrayCancel.CancelStrays` | ttsengine/TTSSpeaker.cpp:229-236 | A run from the start whose one cancelling call misses the first speech and interrupts the second |
| `SpeechOutcomes.ReportTellsWhatHappened` | ttsengine/TTSSpeaker.cpp:816-824 | Whatever happens while a speech is being spoken, its client is told once: "interrupted" if and only if a call cancelled it, else the network error or other error that came, else "spoke" |
| `SpeakerRaces.PopFindsNothingExactly` | ttsengine/TTSSpeaker.cpp:782-804 | From any state in which the worker has left its wait, and with any calls before and after its last test, the pop finds the queue empty if and only if the test lets it go on and the calls leave nothing queued |
| `SpeakerRaces.AnswerFindsNothingExactly` | ttsengine/TTSSpeaker.cpp:766-770 | The same for the pop that answers a failed build |
| `SpeakerRaces.RunIsUndefinedExactly` | ttsengine/TTSSpeaker.cpp:758-832 | A whole run comes to call front() on an empty list if and only if the calls between some test and its pop leave nothing queued |
| `EngineRace.AbortAfterTestIsUndefined` | ttsengine/TTSSpeaker.cpp:782-804 | A run of the whole engine, keeping the arbitration's invariant, in which an abort empties the queue between the two |
| `SpeakerRaces.FlagFlipIsUndefined` | ttsengine/TTSSpeaker.cpp:782-804 | The same without any speech, by the pipeline flag alone |
| `FailingBuilds.FailingBuildsAreBounded` | ttsengine/TTSSpeaker.cpp:763-832 | On every run in which a pipeline is wanted and none can be built, no speech is reported as spoken, every popped one is answered or in the worker's hand, and attempts are at most the accepted speeches plus the threshold times one more than the failure reports and the overruns of the 8-bit counter |
| `FailingBuilds.NothingIsStartedExactly` | ttsengine/TTSSpeaker.cpp:764-804 | On such a run no speech is started, and every answer is the build failure report, if and only if the worker's tests still hold whenever it acts on them |
| `FailingBuilds.PreemptionStarts` | ttsengine/TTSSpeaker.cpp:171-175 | A preemptive request around the worker's test has its speech started with no pipeline |
| `PipelineLaws.ResetRecovers` | ttsengine/TTSSpeaker.cpp:523-546 | From any state a reset leaves no error, no network error and no pause; after an error the old pipeline is gone, and there is a new one if and only if it is wanted and the one attempt made succeeds |
| `PipelineLaws.CreateBuilds` | ttsengine/TTSSpeaker.cpp:434-521 | Creating does nothing unless a pipeline is wanted and missing; otherwise one attempt decides, or a second after an old error, and whatever is built is free of errors |
| `PipelineLaws.CounterCountsFailures` | ttsengine/TTSSpeaker.cpp:441-518 | The counter is zero when a pipeline has just been built, and one up after a failed attempt, as far as eight bits go |
| `PipelineLaws.UnwantedPipelineGoes` | ttsengine/TTSSpeaker.cpp:775-777 | At the head of the loop a pipeline no longer wanted is torn down, and the queue stays |
| `PipelineLaws.WantedPipelineComes` | ttsengine/TTSSpeaker.cpp:764-766 | A wanted one is built, if the media framework lets it |
| `PipelineLaws.StopEndsTheWorker` | ttsengine/TTSSpeaker.cpp:790-797 | Told to stop, the worker ends for good |
| `PipelineLaws.NewSpeakerRests` | ttsengine/TTSSpeaker.cpp:782-788 | A new speaker builds, pops and reports nothing until it is asked to |
| `PipelineLaws.AnswerAllowsAnAttempt` | ttsengine/TTSSpeaker.cpp:768-773 | Answering a failed build sets the counter back, so that another attempt is made |
| `PipelineLaws.RequestsQueueUp` | ttsengine/TTSSpeaker.cpp:167-178 | After a preemptive request it alone is queued, what was queued is dropped and what is spoken is to be interrupted; any other request goes to the end |
| `PipelineLaws.FlagsTellExactly` | ttsengine/TTSSpeaker.cpp:523-546 | On every run the error flag is up if and only if a bus error came, with a pipeline there, since the worker last reset or built; the network flag, if and only if a network error did |
| `PipelineLaws.ReportTellsOfErrorsExactly` | ttsengine/TTSSpeaker.cpp:816-824 | On every run a report says "network error" if and only if the speech was not interrupted and a network error came since the last reset, and "spoke" if and only if it was not interrupted, the pipeline is there and no error came since |
| `EngineSpeech.SpeakerInvariantsHold` | ttsengine/TTSSession.cpp:88-243 | Conservation and cancellation hold of the speaker inside the engine |
| `EngineSpeech.ScriptRuns` | ttsengine/TTSManager.cpp:321-787 | What each call does to the speaker, one thing after the other, comes to the call's effect in one step |
| `EngineQueue.QueuedSpeechesBelongToHolder` | ttsengine/TTSSession.cpp:88-102 | In every reachable state each queued speech belongs to a session that has the speaker; if no call broke the arbitration, to the active one |
| `EngineQueue.LosingSilences` | ttsengine/TTSSession.cpp:229-243 | Whatever call takes the speaker from a session leaves none of its speeches queued and the one being spoken due for cancellation |
| `EngineQueue.LostSpeechIsInterrupted` | ttsengine/TTSSpeaker.cpp:204-236 | Such a speech is reported as interrupted, whatever calls come before the report |
| `EngineQueue.HeldSpeechEscapes` | ttsengine/TTSSpeaker.cpp:804-825 | A speech popped and not yet marked escapes: it is started and not reported as interrupted |
| `FineCalls.FineRunsKeepSpeeches` | ttsengine/TTSSession.cpp:88-243 | With the worker moving inside calls too: conservation and cancellation hold at every point of every call, and between calls queued speeches belong to sessions that have the speaker |
| `FineCalls.SingleStepIsFine` | ttsengine/TTSManager.cpp:321-787 | Calls in one step are among those with the worker moving inside |
| `FineCalls.FineStepArbitratesExactly` | ttsengine/TTSManager.cpp:321-787 | And each call keeps the arbitration's invariant exactly as it does alone |
| `FineLosses.LosingSilencesFinely` | ttsengine/TTSSession.cpp:229-243 | With the worker moving inside the call that takes the speaker from a session: none of its speeches is queued in the end, and one being spoken is due for cancellation unless, and only unless, it was popped and not yet marked when the speeches were cleared |
| `SpeakerObject.TTSSpeaker.constructor` | ttsengine/TTSSpeaker.cpp:125-146 | The speaker starts empty, with no pipeline, its worker at the head of the loop |
| `SpeakerObject.TTSSpeaker.EnsurePipeline` | ttsengine/TTSSpeaker.cpp:160-165 | Equals the specification |
| `SpeakerObject.TTSSpeaker.Speak` | ttsengine/TTSSpeaker.cpp:167-178 | Equals the specification; a preemptive request first cancels and flushes |
| `SpeakerObject.TTSSpeaker.TakeFrom` | ttsengine/TTSSpeaker.cpp:207-214 | The loop that erases while iterating removes exactly the client's speeches, keeps the order of the others and lists the ids in order |
| `SpeechFates.ClearingKeepsOrder` | ttsengine/TTSSpeaker.cpp:207-214 | What a client's clearing takes and what it leaves are exactly its own speeches and the others, both in the order of the requests |
| `SpeakerObject.TTSSpeaker.ClearAllSpeechesFrom` | ttsengine/TTSSpeaker.cpp:204-218 | Equals the specification; the one being spoken is cancelled if it is the client's |
| `SpeakerObject.TTSSpeaker.CancelCurrentSpeech` | ttsengine/TTSSpeaker.cpp:229-236 | Equals the specification; no effect unless something is being spoken |
| `SpeakerObject.TTSSpeaker.Reset` | ttsengine/TTSSpeaker.cpp:238-244 | Equals the specification |
| `SpeakerObject.TTSSpeaker.SetSpeakingState` | ttsengine/TTSSpeaker.cpp:271-282 | Equals the specification; the end of a speech clears a pending cancellation |
| `SpeakerObject.TTSSpeaker.QueueData` | ttsengine/TTSSpeaker.cpp:284-288 | Equals the specification |
| `SpeakerObject.TTSSpeaker.FlushQueue` | ttsengine/TTSSpeaker.cpp:290-293 | Equals the specification |
| `SpeakerObject.TTSSpeaker.DequeueData` | ttsengine/TTSSpeaker.cpp:295-301 | Takes the oldest speech and clears a pending cancellation |
| `SpeakerObject.TTSSpeaker.CreatePipeline` | ttsengine/TTSSpeaker.cpp:434-521 | The mutual recursion with resetting ends, and comes to one attempt, or two after an old error |
| `SpeakerObject.TTSSpeaker.ResetPipeline` | ttsengine/TTSSpeaker.cpp:523-546 | The same from the other side: after an error the pipeline is destroyed and one attempt is made at a new one |
| `SpeakerObject.TTSSpeaker.DestroyPipeline` | ttsengine/TTSSpeaker.cpp:548-562 | Equals the specification |
| `SpeakerObject.TTSSpeaker.InformAfterSpeaking` | ttsengine/TTSSpeaker.cpp:816-824 | The four outcomes in their order of precedence |
| `SpeakerObject.TTSSpeaker.Step` | ttsengine/TTSSpeaker.cpp:758-832 | The worker's loop, cut at its lock points, equals the specification |
| `SpeakerObject.TTSSpeaker.HandleError` | ttsengine/TTSSpeaker.cpp:839-859 | Errors on the bus are ignored without a pipeline; network errors set both flags |
| `SpeakerObject.TTSSpeaker.StopThread` | ttsengine/TTSSpeaker.cpp:148-152 | The destructor's writes |
| `ResourceMirror.ClientsFollowTheEngine` | ttsclient/TTSClientPrivateRtRemote.cpp:966-977 | On every run of engine and clients each session's resource events alternate from "acquired"; the last one on the way agrees with the engine; with none on the way the client's flag does, even across forced fetches |
| `ResourceMirror.HearingAllCatchesUp` | ttsclient/TTSClientPrivateRtRemote.cpp:708-727 | Once the engine rests, delivering what is on the way makes the flag right |
| `ResourceMirror.SessionInfo.OnSessionEvent` | ttsclient/TTSClientPrivateRtRemote.cpp:960-977 | Each resource event sets the flag and is passed on; other events leave it alone |
| `ResourceMirror.SessionInfo.Hears` | ttsclient/TTSClientPrivateRtRemote.cpp:966-977 | Whichever of the two resource events the engine sends, the client takes it for that one |
| `ResourceMirror.SessionInfo.IsActiveSession` | ttsclient/TTSClientPrivateRtRemote.cpp:708-727 | Answers with the flag, after replacing it by the engine's answer if forced to ask |
| `EventDelivery.SentIsDeliveredInOrder` | ttsengine/TTSEventSource.cpp:117-177 | With sends from any thread, sent is delivered, in flight and queued, in order; what rests without a timer is exactly what was sent in the handler's gap |
| `EventDelivery.ArmedHandlerDrains` | ttsengine/TTSEventSource.cpp:118-166 | An armed handler left alone delivers everything and removes its timer |
| `EventDelivery.SendInGapIsStranded` | ttsengine/TTSEventSource.cpp:153-164 | An event sent in the gap stays queued with no timer |
| `EventDelivery.NextSendRescues` | ttsengine/TTSEventSource.cpp:168-174 | The next send arms the timer, and everything is delivered in order |
| `ResourceDelivery.RightAtRestExactly` | ttsengine/TTSEventSource.cpp:153-164 | When a session's event source has come to rest, its client believes what the engine holds if and only if an even number of resource events is stranded |
| `ResourceDelivery.NextEventSetsRight` | ttsengine/TTSEventSource.cpp:168-174 | The session's next event, of whatever kind, sets the client right |
| `EventSource.TTSEventSource.SendEvent` | ttsengine/TTSEventSource.cpp:168-176 | Equals the specification |
| `EventSource.TTSEventSource.HandleEvent` | ttsengine/TTSEventSource.cpp:118-166 | One uninterrupted call of the handler equals the steps of the specification |
| `Listeners.Emit.AddListenerOrQueue` | ttsengine/TTSEventSource.cpp:30-38 | Additions are deferred while sending |
| `Listeners.Emit.DelListenerOrQueue` | ttsengine/TTSEventSource.cpp:40-48 | Removals are deferred while sending |
| `Listeners.Emit.CallAll` | ttsengine/TTSEventSource.cpp:57-81 | The loop that erases while iterating calls each listener of the event once, in order, and erases those whose call says so |
| `Listeners.Emit.Send` | ttsengine/TTSEventSource.cpp:50-100 | Afterwards the list is the survivors, with all deferred additions and then all deferred removals applied, and nothing deferred is left |
| `Listeners.SurvivorsAreThoseNotDead` | ttsengine/TTSEventSource.cpp:69-80 | A listener goes if and only if its own call came back dead |
| `Listeners.RequestsApplyInOrder` | ttsengine/TTSEventSource.cpp:86-96 | Deferred requests are applied one after the other, the oldest first |
| `Listeners.AddingAtTheEnd` | ttsengine/TTSEventSource.cpp:86-90 | With a base class that adds at the end, deferred additions stand at the end in the order in which they were asked for |
| `Listeners.EarlierCallsAskFirst` | ttsengine/TTSEventSource.cpp:57-81 | What an earlier call asked for comes before what a later one did |
| `Isolated.ReplaceIfIsolated` | ttsengine/TTSSpeaker.cpp:619-632 | The loop ends, and equals a pass from left to right whose left context is the output so far |
| `Isolated.PassIsExact` | ttsengine/TTSSpeaker.cpp:619-632 | A pass leaves no isolated occurrence of its symbol, isolates no other, changes exactly the texts that have one, and is idempotent |
| `Isolated.PassReplacesExactly` | ttsengine/TTSSpeaker.cpp:621-631 | A pass writes the word for exactly those symbols that stand alone in the original text and do not come right after a replaced one |
| `Isolated.SpelledOutIsClear` | ttsengine/TTSSpeaker.cpp:679-683 | After the five passes none of the five symbols stands alone; they change exactly the texts in which one does |
| `Isolated.SymbolIsSpelledOut` | ttsengine/TTSSpeaker.cpp:679-683 | In a text in which exactly one of the five symbols stands alone, it becomes its word (dollar, pound, and, bar, or), and nothing else changes |
| `Isolated.SpelledOutIsWritten` | ttsengine/TTSSpeaker.cpp:679-683 | For every text, the five words are written one symbol after the other for exactly the occurrences that a pass replaces |
| `Isolated.PunctuationIsTheRest` | ttsengine/TTSSpeaker.cpp:622 | Among the printing characters, punctuation is what is neither letter nor digit |
| `Isolated.SpacesAreSix` | ttsengine/TTSSpeaker.cpp:622 | The six characters that count as space |
| `Punctuation.ReplaceSuccessivePunctuation` | ttsengine/TTSSpeaker.cpp:639-662 | The nested loops end and equal the scan, or its failure |
| `Punctuation.ScanFailsExactly` | ttsengine/TTSSpeaker.cpp:643-650 | The scan reads past the end if and only if it comes to test a quote in the last place |
| `Punctuation.ScanKeepsLoud` | ttsengine/TTSSpeaker.cpp:639-662 | Every character that is neither a quote nor a silent mark is kept, in order |
| `Punctuation.QuoteFreeScan` | ttsengine/TTSSpeaker.cpp:650-660 | Without quotes no silent mark is left whose nearest non-space to the left is punctuation; exactly such texts are unchanged, and the scan is idempotent |
| `Punctuation.QuotesLeftExactly` | ttsengine/TTSSpeaker.cpp:643-648 | A quote is left if and only if it is one of the two characters that follow an erased one |
| `Punctuation.SilentMarksGo` | ttsengine/TTSSpeaker.cpp:634-637 | After a full stop exactly ?, !, :, ;, -, ( and ) are dropped |
| `Sanitizer.SanitizeString` | ttsengine/TTSSpeaker.cpp:676-685 | The stages in the program's order |
| `Sanitizer.SanitizedIsClear` | ttsengine/TTSSpeaker.cpp:676-685 | Erasing punctuation isolates no symbol again, so in the end none stands alone |
| `Sanitizer.QuoteFreeIsSanitized` | ttsengine/TTSSpeaker.cpp:676-685 | Without quotes sanitising succeeds, is idempotent, and changes exactly the texts that need it |
| `Tokens.SplitLoop` | common/glib_utils.cpp:90-103 | The loop equals the recursive splitting |
| `Tokens.SplitOfJoin` | common/glib_utils.cpp:90-103 | Splitting undoes joining of delimiter-free pieces, but for an empty last piece, which is lost |
| `Tokens.JoinOfSplit` | common/glib_utils.cpp:90-103 | Joining undoes splitting of any text, but for a delimiter at the end |
| `Configuration.ReadFixedOfPrintFixed` | ttsclient/TTSClientPrivateRtRemote.cpp:472 | Every volume, of either sign, is read back as printed |
| `Decimal.NumeralsAreDecimal` | ttsclient/TTSClientPrivateRtRemote.cpp:473 | Numbers are printed in decimal, highest digit first |
| `Configuration.SettingsArriveExactly` | ttsengine/TTSManager.cpp:392-405 | What the client prints is merged field by field into the engine's configuration if and only if no text holds a comma; else nothing changes |
| `Configuration.ReadBackAndSet` | ttsclient/TTSClientPrivateRtRemote.cpp:450-476 | The client reads back exactly what the engine has, with the default voice filled in, and setting that changes the engine exactly if it had none of its own |
| `ConfigurationLaws.UpdateStaysInRange` | ttsengine/TTSSpeaker.cpp:105-112 | Merging keeps volume and rate within 1 to 100; a complete configuration within range replaces the old one, and one without settings changes nothing |
| `ConfigurationLaws.ReadingStaysInRange` | ttsengine/TTSManager.cpp:392-405 | So does reading any text, accepted or not |
| `ConfigurationLaws.VolumesFromOneToAHundred` | ttsengine/TTSSpeaker.cpp:72-77 | A volume is taken if and only if it lies between what is written 1 and 100 |
| `ConfigurationLaws.RatesFromOneToAHundred` | ttsengine/TTSSpeaker.cpp:79-84 | A rate is taken if and only if it lies between 1 and 100 |
| `ConfigurationLaws.WireForm` | ttsclient/TTSClientPrivateRtRemote.cpp:465-476 | The six fields of the text, in their order |
| `ConfigurationLaws.FixedForm` | ttsclient/TTSClientPrivateRtRemote.cpp:472 | A volume is printed with six decimals, and with a sign exactly if it is negative |
| `ConfigurationLaws.MissingNumbers` | ttsengine/TTSManager.cpp:402-403 | A missing volume stands for 100 and a missing rate for 50, but only if one more delimiter follows; without it the text is refused |
| `ConfigurationLaws.RatesWrapAround` | ttsengine/TTSManager.cpp:403 | A rate that fits an int is taken modulo 256 |
| `ConfigurationLaws.TooWide` | ttsengine/TTSManager.cpp:403 | A rate beyond an int cannot be read |
| `ConfigurationLaws.AcceptedIsConfigured` | ttsengine/TTSManager.cpp:432-437 | After an accepted text the engine is configured if and only if it was so before or the text gives an end point, and then it has both |
| `ConfigurationLaws.DefaultVoiceFollowsLanguage` | ttsengine/TTSSpeaker.cpp:90-103 | A voice that was set goes first; without one the answer is the default of the current language and of no other |
| `ConfigurationCache.MergingIsAssociative` | ttsclient/TTSClientPrivateRtRemote.cpp:483-494 | Merging settings first and applying them at once is applying them one by one |
| `ConfigurationCache.SendingEachInTurn` | ttsengine/TTSManager.cpp:425-437 | What the end point fallback makes of any sequence of configurations; those with commas are refused one by one |
| `ConfigurationCache.CachingRefinesSendingExactly` | ttsclient/TTSClientPrivateRtRemote.cpp:228-239 | For any configurations, sending the cached one once leaves the engine as sending each in turn does if and only if: without a comma in the merged texts, the refused configurations do not matter and the end points meet; with one, the others change nothing |
| `ConfigurationCache.CommaFreeCachingRefinesExactly` | ttsclient/TTSClientPrivateRtRemote.cpp:228-239 | Without commas that means: where one end point is missing to the end, the first value the other had is also its last |
| `ConfigurationCache.CachingRefinesSending` | ttsclient/TTSClientPrivateRtRemote.cpp:478-506 | So always on an engine that has both end points |
| `ConfigurationCache.CommaLosesTheCache` | ttsclient/TTSClientPrivateRtRemote.cpp:228-239 | A comma in the merged texts loses all cached settings |
| `ConfigurationCache.CachingCanDiffer` | ttsengine/TTSManager.cpp:432-437 | Two calls after which the end points differ |
| `ConfigurationObjects.TTSConfiguration.constructor` | ttsengine/TTSSpeaker.cpp:33-40 | The defaults |
| `ConfigurationObjects.TTSConfiguration.SetEndPoint` | ttsengine/TTSSpeaker.cpp:44-49 | An empty text is ignored |
| `ConfigurationObjects.TTSConfiguration.SetVolume` | ttsengine/TTSSpeaker.cpp:72-77 | A volume outside 1 to 100 is ignored |
| `ConfigurationObjects.TTSConfiguration.SetRate` | ttsengine/TTSSpeaker.cpp:79-84 | A rate outside 1 to 100 is ignored |
| `ConfigurationObjects.TTSConfiguration.UpdateWith` | ttsengine/TTSSpeaker.cpp:105-112 | The merge, field by field; the preemptive flag stays |
| `ConfigurationObjects.ReadInto` | ttsengine/TTSManager.cpp:392-405 | Equals the specification of reading: a wrong count changes nothing, a number that cannot be read leaves the object half updated |
| `ConfigurationObjects.SetDefaultConfiguration` | ttsengine/TTSManager.cpp:420-437 | Equals the specification, with the end point fallback |
| `ConfigurationObjects.MergeInto` | ttsclient/TTSClientPrivateRtRemote.cpp:483-494 | The client's merge is the engine's |
| `ConfigurationObjects.TTSClientPrivateRtRemote.SetTTSConfiguration` | ttsclient/TTSClientPrivateRtRemote.cpp:478-506 | Sends when connected; else the cache is the merge of all configurations given since |
| `ConfigurationObjects.TTSClientPrivateRtRemote.ConnectToTTSManager` | ttsclient/TTSClientPrivateRtRemote.cpp:219-239 | Sends that merge once, if there is one, and forgets it |
| `ConfigurationObjects.TTSClientPrivateRtRemote.CleanupConnection` | ttsclient/TTSClientPrivateRtRemote.cpp:382-385 | Disconnects; nothing is cached then, unless the client was disconnected before |
| `IdList.Cancelled` | ttsengine/TTSSession.cpp:314-319 | The printing loop gives the ids in decimal, joined by commas |
| `IdList.OnCancelled` | ttsclient/TTSClientPrivateRtRemote.cpp:1000-1008 | The parsing loop calls back once for each non-empty piece, with the number at its head |
| `IdList.IdsArriveExactly` | ttsclient/TTSClientPrivateRtRemote.cpp:998-1009 | The client hears of exactly the cancelled ids, in order, if and only if each fits into its `long` |
| `IdList.AtolReadsSigned` | ttsclient/TTSClientPrivateRtRemote.cpp:1004 | Leading spaces are skipped, a sign is read, what follows the digits is not, and values beyond a long are clamped |
| `TaskHandoff.HandoffIsSafe` | ttsclient/Service.cpp:44-83 | However posts, joins, spawns and threads interleave: tasks start at most once and in posting order, at most one thread is live, no task's post joins its own thread, and with no post in progress queued tasks have a live thread |
| `TaskHandoff.LiveThreadDrains` | ttsclient/Service.cpp:57-73 | That thread, left alone, starts every queued task and ends |
| `TaskHandoff.RunningFromTheStartStrands` | ttsclient/Service.h:72-82 | Why the flag has to be false at the start |
| `AsyncWorker.AsyncWorker.Post` | ttsclient/Service.cpp:44-74 | Equals the specification: queue, and unless running wait for the old thread to end, join it and start a new one |
| `AsyncWorker.AsyncWorker.Cleanup` | ttsclient/Service.cpp:76-83 | Equals the specification, waiting included |
| `AsyncWorker.WaitedHasEnded` | ttsclient/Service.cpp:80 | Waiting for the thread comes to an end |
| `AsyncWorker.AsyncWorker.RunThread` | ttsclient/Service.cpp:57-72 | The thread's loop equals the steps of the specification |
| `CrashLimiter.Service.OnDeactivation` | ttsclient/Service.cpp:189-217 | The kept timestamps are those of the current burst; a counted crash, judged at one reading of the clock and stamped at another, is followed by an attempt to revive if and only if its position in the burst is within the limit |
| `CrashLimiter.Service.LastSessionWasHealthy` | ttsclient/Service.cpp:173-182 | True if and only if there was no counted crash or the last one is long enough ago |
| `CrashLimiter.Service.IsServiceUnstable` | ttsclient/Service.cpp:184-187 | True if and only if the current burst is longer than the limit |
| `CrashLimiter.BurstIsLimitedExactly` | ttsclient/Service.cpp:199-215 | A burst of any length is followed by exactly as many attempts as allowed, if it is that long, and no part of it by more |
| `CrashLimiter.UnstableUntilHealthy` | ttsclient/Service.cpp:184-206 | An unstable service stays so through any number of crashes with no healthy gap between them |
| `CrashLimiter.StableAfterHealthyGap` | ttsclient/Service.cpp:199-206 | A healthy gap makes it stable at once, if any restart is allowed |
| `CrashLimiter.HealthyIsReachingThreshold` | ttsclient/Service.cpp:177-179 | In whole seconds, a gap is healthy if and only if it reaches the threshold |
| `CrashLimiter.SetBackClock` | ttsclient/Service.cpp:177-179 | With the clock set back a gap is healthy only for a threshold of zero, and then only within the second |

## Left out

- The open allocation policy, in which every session has the speaker; only the reservation policy is modelled.
- GStreamer: pipeline construction, bus errors and the end of playing are choices of the environment, and the attempt's outcome is one bit.
- Pause, resume, `started` and `willSpeak`: their pairing depends on the order of bus messages.
- The text of a speech and its secure flag travel through queue and worker unchanged and are not in the queue's model.
- rtRemote transport, sockets, process monitoring, logging, security tokens and the JSON calls of the Thunder client.
- `TTSClient` forwarding, `listVoices` and the JSON client's id map would add only easy members.
- A session's own copy of the configuration, which is replaced later while it is being spoken for.
- `SpeakerObject.TTSSpeaker.CreatePipeline`: building is one bit and one call is one step, so no bus error comes in between; with errors arriving the recursion has no bound.
- `SpeakerObject.TTSSpeaker.ResetPipeline`: the same; waiting for the pipeline's null state is not modelled.
- `SpeakerObject.TTSSpeaker.CancelCurrentSpeech`: its test and its write are one step; `SplitCancels` takes them apart.
- `SpeakerObject.TTSSpeaker.Speak`: the text and the secure flag are not carried.
- `SpeakerObject.TTSSpeaker.Step`: `willSpeak` and the playing itself are part of the step before the report.
- `SpeechCancellation.InterruptedIffCancelled`: for cancels whose test and write are one step; `SplitCancels.InterruptedIffWritten` holds of all.
- `EngineSpeech.SpeakerInvariantsHold`: with calls in single steps; `FineCalls.FineRunsKeepSpeeches` lets the worker move inside them.
- `EngineQueue.LosingSilences`: with the call in one step; `FineLosses.LosingSilencesFinely` lets the worker move inside it.
- `EngineObjects.TTSManager.EnableTTS`: the `tts_state_changed` event and the open policy.
- `EngineObjects.TTSManager.CreateSession`: the open policy, the fields of the reply and the registration of callbacks.
- `EngineObjects.TTSManager.DestroySession`: the open policy and the connection map.
- `EngineObjects.TTSManager.ReservePlayerResource`: the early answer under other policies.
- `EngineObjects.TTSManager.ReleasePlayerResource`: the early answer under other policies.
- `EngineObjects.TTSManager.ClaimPlayerResource`: the early answer under other policies.
- `EngineObjects.TTSSession.SetActive`: clients are always notified, as under the reservation policy.
- `EngineObjects.TTSSession.SetInactive`: clients are always notified, as under the reservation policy, and the event with the cancelled ids is in the contract of `AbortAndClearPending` only.
- `EngineObjects.TTSSession.Speak`: the text and the secure flag are not carried.
- `EngineObjects.CallSpeak`: the text and the secure flag are not carried.
- `EngineObjects.CallAbortAndClearPending`: the event with the cancelled ids is in the contract of `AbortAndClearPending` only.
- `ResourceMirror.ClientsFollowTheEngine`: deliveries do not fail; a lost connection drops listeners and sessions and is not modelled.
- `ResourceMirror.SessionInfo.IsActiveSession`: a missing connection or session and a failing enquiry.
- `EventDelivery.SentIsDeliveredInOrder`: for runs without `clear()`, which empties the queue on purpose.
- `EventSource.TTSEventSource.HandleEvent`: send errors, hang detection and the clearing of listeners.
- `Listeners.Emit.Send`: how the base class adds to or removes from its list is a parameter, a listener does not send on the same emitter, and the returned error and the guard on the number of arguments are left out.
- `Sanitizer.SanitizeString`: the final escaping by curl.
- `Configuration.ReadFixedOfPrintFixed`: volumes count millionths; exponents, hexadecimal forms, infinities and rounding of doubles are not read.
- `ConfigurationCache.CachingRefinesSendingExactly`: the connecting thread and `setTTSConfiguration` do not overlap.
- `ConfigurationCache.CachingRefinesSending`: for texts without commas; `ConfigurationCache.CachingRefinesSendingExactly` holds of all.
- `AsyncWorker.AsyncWorker.Post`: no task posts while the poster waits.
- `AsyncWorker.AsyncWorker.Cleanup`: the same, and the destructor's call of it.
- `ConfigurationObjects.SetDefaultConfiguration`: passing the configuration on to the sessions, the `voice_changed` event, and the mutex that stays locked after a configuration that cannot be read.
- `ConfigurationObjects.TTSClientPrivateRtRemote.SetTTSConfiguration`: a failing send and the returned status.
- `ConfigurationObjects.TTSClientPrivateRtRemote.ConnectToTTSManager`: the policy, the event handlers and the cached enabling.
- `ConfigurationObjects.TTSClientPrivateRtRemote.CleanupConnection`: the destruction of the client's sessions.
- `Isolated.PassIsExact`: characters are classified as in the C locale.
- `TaskHandoff.HandoffIsSafe`: one outsider posts at a time, and the worker's destructor, which joins as well, is not called.
- `AsyncWorker.AsyncWorker.RunThread`: no task posts while the thread runs; in `TaskHandoff` tasks do.
- `CrashLimiter.Service.OnDeactivation`: uninitialising the service and notifying its clients.
- `CrashLimiter.BurstIsLimitedExactly`: the limits do not change during a burst.
