# A verified model of the LatSOF audio driver

LatSOF gives a laptop whose microphones hang on the audio DSP an input device on
macOS. The controller already belongs to AppleHDA, so the kernel extension has to
borrow one of AppleHDA's streams to load the DSP's firmware, run capture on a
stream of its own beside AppleHDA's playback, and rebuild all of it after sleep or
a firmware failure. This project models the parts of that where state, time or
the other driver make mistakes easy, and proves what they promise.

**The latch machine.** `RebuildControl` holds the driver's latches and budgets and
every handler that runs under the command gate: load, sleep, wake, power notices,
client and engine starts and stops, the 500 ms tick. Outcomes of loads and
messages, the class of AppleHDA's output and the audio family's view of the engine
come with the event and are arbitrary. `ControlInvariant` proves what all runs
keep, `DemandRuns` that no held session is lost, `RebuildBudgets` that retries end
and recovery cannot feed itself, with bounds that are met, `BorrowPatience` when a
stream may be taken, `RebuildResponse` how soon the microphone is back and
`EngineSessions` that capture does not outlive its engine and that a requested
resume is carried out or given up, `PowerCycles` what a sleep keeps and a wake brings
back.

**The registers.** `Registers` is a register file with stream descriptors as in
sections 3.3.35 to 3.3.43 of the Intel High Definition Audio Specification and
AppleHDA as an adversary that may read-modify-write any register at every wait but
those inside a stream reset. During a load, a capture start or a stop the controller
may stop decoding, and begin again, at any of these waits: writes then go nowhere and
reads return noise. What a load knows of the board is what it read of it: the stream
index after the settle wait, the capabilities just before the last look. `Loader`
proves the hand-back of the borrowed stream for every exit of a load, under the exact
condition on decoding, `LoaderRuns` what the loader runs on meanwhile, `Capture` the footprint of capture, `LoadBesideCapture` what a
load does to idle capture, and `SharedRuns` joins registers and latches into one
machine. `FootprintRuns` proves that its runs keep both in step, `NeutralRuns` that
everything else is left to AppleHDA, and `DriverRuns` both from the loading of the
driver on. `AudioDevice` is the device object with the handlers in place; its
`Dispatch` is one step of that machine. `BufferList` fills the descriptor list of the
firmware image (sections 3.6.2 and 3.6.3).

**The clocks and the filter.** `SampleClock` recovers an unbounded frame count from a
position in a ring and free-runs through outages. `ZeroTimestamp` is the plugin's
filtered clock with the error bound of the pairs it hands out. Both are measured on a
time line of the hardware (`TimeLines`). `DcFilter` is the DC
blocker of both, called in blocks by several clients and proved to be one pass over
one stream.

**The rate enforcer.** `RateEnforcer` is the timed machine that corrects a sample
rate only after a quiet window and backs off from a fight.

Assumptions are preconditions, stated where they are used:

- The clocks advance, and a pause takes at least the time asked for.
- A register that a load borrows is spared (`Loader.Spares`) if the controller decodes at the borrow and at the hand-back, or is gone whenever the stream is written; `Loader.HandBackIsExact` shows that nothing weaker will do for the stream. PPCTL and the SPIB registers need only a controller that was there at the last look to be there at the hand-back. Other registers need nothing.
- A capture start or stop is sound (`Capture.SoundStart`, `Capture.SoundStop`): the controller decodes where its outcome needs it. `Capture.StartIsExact` and `Capture.StopIsExact` show that this is exact.
- For the agreement of latches and registers only: AppleHDA leaves stream 6, its PPCTL bit and the DSP's own registers alone (`Capture.Polite`), and D3 stops stream 6, couples it and clears the DSP's interrupt enable (`FootprintRuns.PoliteEvent`). The hand-back needs neither.

Where the code differs from what its comments say, the model follows the code:

- A borrow-time bail consumes one of the twelve tries, although waiting is called free.
- The remembered stamp time is that of the event itself, not the back-dated time.
- The enforcer's back-off lasts for one correction; then 8 seconds apply again.
- A demand after giving up buys fresh recovery episodes too, so up to 48 loads and not one 12-try round only (`RebuildBudgets.ADemandBuys48Loads`).
- A client's session does not outlast the engine's: an engine stop ends it, latched or running, and a failed engine start drops it while latched (`DemandRuns.StepDropsDemand`).
- The last write to the borrowed stream is not AppleHDA's own state on every exit. The last look before the borrow lets a controller pass that has stopped decoding; the snapshot then holds noise, all ones say, and if the controller answers again by the hand-back the noise is written to AppleHDA's stream (`Loader.NoiseComesBack`), though not to PPCTL or the SPIB registers, whose capabilities that load cannot have found. A controller that was there at the borrow and is gone at the hand-back keeps the firmware's pointers. `Loader.HandBackIsExact` says exactly which loads are safe.
- The check of the stream counts is not the read the load uses: that comes after a settle wait of up to 1.75 s, unchecked. From a controller that is gone by then the load takes stream 15 or 0 for the first output, while the last look guards the real one (`Loader.LookGuardsTheBorrow`).
- A load that comes up though its capability walk found nothing forgets PPCTL, and capture runs coupled (`FootprintRuns.BlindLoadRunsCoupled`).
- The plugin's clock takes the 0 the driver answers while the DSP is down for a wrap, the case the kernel engine guards against: every outage that begins off position 0 counts one ring that was never finished (`ZeroTimestamp.OutageCountsOnce`).
- The plugin's sample divisor is one less than the kernel's, so the lowest sample exceeds full scale.

## Model

| member | source | states |
|---|---|---|
| ControlInvariant.StartEstablishes | kext/LatSOFAudio/LatSOFAudioDevice.cpp:683-732 | a load that succeeds leaves a state of the joint invariant, with nothing captured and nothing demanded |
| ControlInvariant.LoadingFails | kext/LatSOFAudio/LatSOFAudioDevice.cpp:683-732 | loading the driver fails if and only if the capture rings are missing or a first load that is neither put off nor backs off does not come up |
| ControlInvariant.LoadingLeaves | kext/LatSOFAudio/LatSOFAudioDevice.cpp:699-732 | a load that succeeds leaves either a DSP that is up or rounds with nothing spent, and no slept-once mark, request or running engine |
| PowerCycles.SleepParks | kext/LatSOFAudio/LatSOFAudioDevice.cpp:1963-1987 | a sleep takes the DSP down, cancels the rounds and remembers the session that was running or latched |
| PowerCycles.WakeAfterSleepArms | kext/LatSOFAudio/LatSOFAudioDevice.cpp:1999-2075 | from every state of the invariant: a sleep and a remapped wake leave a cold rebuild armed with fresh budgets, the held session latched and the engine's held session requested |
| PowerCycles.FailedRemapIsRepaired | kext/LatSOFAudio/LatSOFAudioDevice.cpp:1994-2042 | a wake that cannot map the device arms nothing and loses nothing; the next that can rebuilds |
| PowerCycles.WakesRebuildAfterSleeps | kext/LatSOFAudio/LatSOFAudioDevice.cpp:1985-1999 | over every run of the driver: a power-up begins a rebuild if and only if the device maps, the DSP is down and the machine has slept since the load |
| PowerCycles.SleepIsServed | kext/LatSOFAudio/LatSOFAudioDevice.cpp:1982-2077 | after any sleep and wake, when nothing fails: within 3 ticks, or 63 if borrowing is strict, the session held before or asked for since is served |
| DriverRuns.SleepIsServedOnRegisters | kext/LatSOFAudio/LatSOFAudioDevice.cpp:1982-2077 | the same on the registers: stream 6 runs again if and only if it is wanted |
| DriverRuns.RemapIsRepairedOnRegisters | kext/LatSOFAudio/LatSOFAudioDevice.cpp:1994-2042 | and for a remap that fails first |
| DriverRuns.PlaybackIsRefused | kext/LatSOFAudio/LatSOFAudioDevice.cpp:3032-3037 | a playback request changes nothing |
| ControlInvariant.StepKeeps | kext/LatSOFAudio/LatSOFAudioDevice.cpp:2212-2384 | every handler, under every outcome of loads and messages, keeps the joint invariant: capturing only on a ready DSP, rebuild pending only on a DSP that is down and with tries left, ready only while mapped, no playback, no codec mapping |
| ControlInvariant.RoundKeeps | kext/LatSOFAudio/LatSOFAudioDevice.cpp:2239-2334 | a retry round keeps the invariant through deferral, failed load, borrow-time bail, give-up, success and failed re-arm |
| ControlInvariant.RunKeeps | kext/LatSOFAudio/LatSOFAudioDevice.cpp:1982-2077 | the invariant holds at every step boundary of every run |
| ControlInvariant.JackIsQuiet | kext/LatSOFAudio/LatSOFAudioDevice.cpp:2463-2501 | the jack branch of the tick, which would stop and reprogram AppleHDA's output, is not taken from any state of the invariant |
| ControlInvariant.PlaybackIsUnreachable | kext/LatSOFAudio/LatSOFAudioDevice.cpp:2463-2501 | nor in any run of the driver since its load, since no step maps the codec or begins a playback |
| DemandRuns.RoundHolds | kext/LatSOFAudio/LatSOFAudioDevice.cpp:2271-2289 | a retry round neither loses nor invents a session, whatever becomes of its load and its re-arm |
| DemandRuns.DemandIsConserved | kext/LatSOFAudio/LatSOFAudioDevice.cpp:1963-1980 | in every run of the user client, across sleeps, refused and timed-out starts, give-ups and re-arms: the last request was a start if and only if capture runs or is latched |
| DemandRuns.StepDropsDemand | kext/LatSOFAudio/LatSOFAudioDevice.cpp:2919-2930 | for clients and engine together: a held session ends with a step if and only if the step is a stop, the client's or the engine's, or an engine start, direct or resumed, that fails while nothing captures |
| DemandRuns.MicrophoneFollowsTheLastWord | kext/LatSOFAudio/LatSOFAudioDevice.cpp:2740-2985 | over every run of clients and engine: somebody has the microphone, capturing or latched, if and only if the last step that took or dropped it took it |
| DemandRuns.ClientSessionIsKept | kext/LatSOFAudio/LatSOFAudioDevice.cpp:2740-2772 | after a client's last start its session lasts if no later step drops it and, unless somebody took the microphone again, only then |
| DemandRuns.SharedRunDropsDemand | kext/LatSOFAudio/LatSOFAudioDevice.cpp:3060-3066 | a concrete run in which a failed engine start loses a client's latched session |
| DemandRuns.EngineStopDropsDemand | kext/LatSOFAudio/LatSOFAudioDevice.cpp:3071-3073 | another, in which the engine's stop ends a capture the client still holds |
| BorrowPatience.TimeoutsRecover | kext/LatSOFAudio/LatSOFAudioDevice.cpp:2836-2895 | a start whose message times out keeps its session latched and hands the DSP to patient rounds, or after three episodes is counted as one too many |
| BorrowPatience.UnansweredStopRecovers | kext/LatSOFAudio/LatSOFAudioDevice.cpp:2947-2963 | a stop whose messages time out leaves no session and hands the DSP to patient rounds, within the same budget |
| BorrowPatience.SuccessRefills | kext/LatSOFAudio/LatSOFAudioDevice.cpp:2914-2916 | a capture start that succeeds makes three recoveries possible again |
| DriverRuns.UnansweredStopOnRegisters | kext/LatSOFAudio/LatSOFAudioDevice.cpp:2932-2983 | such a stop halts the stream all the same, whoever asked for it |
| DriverRuns.EngineStartOnRegisters | kext/LatSOFAudio/LatSOFAudioDevice.cpp:3060-3066 | an engine start on an idle DSP ends running and capturing, or with capture off and no session left |
| RebuildBudgets.RoundsTerminate | kext/LatSOFAudio/LatSOFAudioDevice.cpp:2212-2334 | whatever is interleaved, an arming ends, by success or by its last failed try, no later than the decoding round its remaining budget names; clients cannot refill it while it is pending |
| RebuildBudgets.ArmingAllows252Rounds | kext/LatSOFAudio/LatSOFAudioDevice.cpp:2242-2265 | 252 decoding rounds end any arming |
| RebuildBudgets.PatientArmingCanTake251Rounds | kext/LatSOFAudio/LatSOFAudioDevice.cpp:2242-2265 | the bound is tight: a fresh arming and a run with 251 decoding rounds that has not ended |
| RebuildBudgets.SlowestArming | kext/LatSOFAudio/LatSOFAudioDevice.cpp:2242-2257 | from every patient armed state every smaller number of rounds is possible |
| RebuildBudgets.StepIsPaid | kext/LatSOFAudio/LatSOFAudioDevice.cpp:1935-1960 | no step that is not a refill raises the number of loads still possible, and each load lowers it |
| RebuildBudgets.NoRecoveryLivelock | kext/LatSOFAudio/LatSOFAudioDevice.cpp:1935-1960 | between refills at most 48 loads and 3 recoveries, even if every firmware boots and every capture message times out |
| RebuildBudgets.AWakeCanCost48Loads | kext/LatSOFAudio/LatSOFAudioDevice.cpp:2036-2041 | the bound is tight: one wake with a latched session, and a run of 48 loads without a refill |
| RebuildBudgets.MostWastefulRun | kext/LatSOFAudio/LatSOFAudioDevice.cpp:1940-1957 | from every armed state with a latched session the whole potential can be spent |
| RebuildBudgets.ADemandBuys48Loads | kext/LatSOFAudio/LatSOFAudioDevice.cpp:2741-2772 | after a give-up a refused start restores the whole potential, recovery episodes included, and a run can spend all 48 loads of it; while a rebuild is pending or the device unmapped it buys nothing |
| RebuildResponse.ResponseBound | kext/LatSOFAudio/LatSOFAudioDevice.cpp:2212-2289 | when nothing fails, however clean and programmed rounds alternate and whatever clients, engine, AppleHDA and power notices do in between: after as many ticks as a programmed output would take the DSP is ready, and capture runs if and only if the last word was for it |
| RebuildResponse.ResponseTime | kext/LatSOFAudio/LatSOFAudioDevice.cpp:2212-2289 | with an output that keeps its class the number of ticks is exact: ready with that tick and no sooner |
| RebuildResponse.FreshArmingResponds | kext/LatSOFAudio/LatSOFAudioDevice.cpp:2242-2289 | from a fresh arming: within 63 ticks under patience, 3 without; exactly 3 with a clean output and 63 with one that stays programmed |
| DriverRuns.CaptureComesBack | kext/LatSOFAudio/LatSOFAudioDevice.cpp:2212-2289 | the same on the registers, AppleHDA writing in between: the RUN bit of stream 6 is set again if and only if capture is wanted |
| BorrowPatience.PatienceFollowsArmings | kext/LatSOFAudio/LatSOFAudioDevice.cpp:1945-1957 | in every run since the load the driver is patient if and only if borrowing is strict or the arming in force came from a recovery, a demand with nothing pending, or a load put off at first |
| BorrowPatience.PatientBorrowing | kext/LatSOFAudio/LatSOFAudioDevice.cpp:1311-1321 | in every run since the load: a running output is never borrowed, and where that policy asks for patience a programmed one only after more than 20 programmed rounds, counted from the events since the last arming or clean round |
| BorrowPatience.BailSpendsATry | kext/LatSOFAudio/LatSOFAudioDevice.cpp:2265-2333 | a bail at the borrow keeps the rounds armed but costs a try, so the twelfth one gives up |
| DriverRuns.PatientSnapshots | kext/LatSOFAudio/LatSOFAudioDevice.cpp:1311-1339 | the same for whole runs of the driver and its registers: no snapshot holds a running stream, nor a programmed one before patience is spent; or the controller was gone at the last look, and it holds noise, or gone when the stream index was read, and it is of another stream |
| DriverRuns.PatientFirstSnapshot | kext/LatSOFAudio/LatSOFAudioDevice.cpp:699-732 | and for the snapshot of the load path |
| Loader.LookGuardsTheBorrow | kext/LatSOFAudio/LatSOFAudioDevice.cpp:1161-1171 | the last look keeps every running stream from being snapshotted if and only if the index read after the settle wait is the first output's |
| EngineSessions.StepHeaded | kext/LatSOFAudio/LatSOFKernelAudio.cpp:330-383 | with starts from the engine alone, a step breaks the rule that capture runs only under a running engine and is never latched exactly if it is a sleep that interrupts capture |
| EngineSessions.NoHeadlessDma | kext/LatSOFAudio/LatSOFAudioDevice.cpp:3048-3066 | over whole runs: no headless DMA and no latch if and only if no sleep finds capture running |
| EngineSessions.StoppedEnginesStayHeaded | kext/LatSOFAudio/LatSOFKernelAudio.cpp:367-383 | so it never happens when the family stops the engine before each sleep, which is what it does |
| EngineSessions.ExecutorOutcome | kext/LatSOFAudio/LatSOFAudioDevice.cpp:2360-2383 | one resume attempt: it ends the request with the session back, or counts a failure and ends it exactly at the third or with recovery exhausted |
| EngineSessions.ResumeSettles | kext/LatSOFAudio/LatSOFAudioDevice.cpp:2356-2384 | over every run without a new request: a latched resume is settled within the tries it has left, counted in ticks with a ready DSP; the session is back, or it was given up after exactly three failures or with recovery exhausted |
| EngineSessions.RequestIsSettled | kext/LatSOFAudio/LatSOFAudioDevice.cpp:3082-3088 | a request from the family, whatever went before, gets three attempts of its own |
| DriverRuns.RequestIsSettledOnRegisters | kext/LatSOFAudio/LatSOFAudioDevice.cpp:3082-3088 | the same in runs with registers |
| PowerCycles.NoResumeIntoSleep | kext/LatSOFAudio/LatSOFAudioDevice.cpp:2347-2359 | from the sleep notice to the wake or its abort no tick resumes anything |
| DriverRuns.NoResumeIntoSleepOnRegisters | kext/LatSOFAudio/LatSOFAudioDevice.cpp:2347-2359 | and the tick does to the registers no more than its retry round |
| DriverRuns.NoticesLiftTheGuard | kext/LatSOFAudio/LatSOFAudioDevice.cpp:2100-2106 | the wake, and the notice of a sleep that never came, lift the guard |
| PowerCycles.ExecutorWaits | kext/LatSOFAudio/LatSOFAudioDevice.cpp:2356-2359 | the executor acts only with a request, a DSP that is up, no rebuild pending, no sleep ahead and an engine published and awake |
| PowerCycles.StartsHeldEngines | kext/LatSOFAudio/LatSOFKernelAudio.cpp:407-427 | an attempt starts the engine if and only if that holds and the engine is held, not running, and at most one pause deep |
| PowerCycles.HeldEnginesRun | kext/LatSOFAudio/LatSOFKernelAudio.cpp:423-437 | such an attempt, answered, ends the request with the engine running and capture on |
| PowerCycles.DeepPausesAreKept | kext/LatSOFAudio/LatSOFKernelAudio.cpp:425-436 | a deeper pause is only given back by a level, and counts as an attempt |
| PowerCycles.IdleRequestsEnd | kext/LatSOFAudio/LatSOFKernelAudio.cpp:410-419 | without an engine, with one that runs or with one nobody holds the request ends and nothing else happens |
| PowerCycles.EngineFollowsItsStarts | kext/LatSOFAudio/LatSOFKernelAudio.cpp:346-369 | over every run the engine runs if and only if the last step that started or stopped it started it |
| Loader.RestoreGivesBack | kext/LatSOFAudio/LatSOFAudioDevice.cpp:517-534 | a restore returns the borrowed stream, PPCTL and the SPIB registers to what the snapshot read, whatever they held and whether or not the stream reset was acknowledged |
| LoaderRuns.LoaderRunsOnFirmware | kext/LatSOFAudio/LatSOFAudioDevice.cpp:1345-1410 | when the loader's RUN lands on a controller that decodes throughout, AppleHDA away: the stream stands on the firmware's list with its length, last entry, format and tag and does nothing but run, its SPIB length is set, PPCTL keeps AppleHDA's bits beside the two global and the two decouple bits, and the DSP's interrupt is on |
| LoaderRuns.ProgramKeepsSpib | kext/LatSOFAudio/LatSOFAudioDevice.cpp:1360-1363 | the other streams' SPIB enables stand as AppleHDA left them |
| LoaderRuns.LoaderIsHalted | kext/LatSOFAudio/LatSOFAudioDevice.cpp:1422-1425 | the loader is halted, with no interrupt enable and no status, before its stream goes back |
| LoaderRuns.LoadComesUp | kext/LatSOFAudio/LatSOFAudioDevice.cpp:1134-1673 | a load comes up if and only if every stage succeeded and the last look did not back off |
| LoaderRuns.SharedWrites | kext/LatSOFAudio/LatSOFAudioDevice.cpp:1184-1213 | the writes before the load proper set the mode bit, clear one status byte and, on a link that is up, the wake status, and touch no other register |
| LoaderRuns.ReadyIsAcknowledged | kext/LatSOFAudio/LatSOFAudioDevice.cpp:1443-1653 | the firmware's ready message is acknowledged |
| LoaderRuns.ClassOfOutput | kext/LatSOFAudio/LatSOFAudioDevice.cpp:375-384 | running, programmed and quiet, read off the descriptor's RUN bit, buffer length and list address |
| LoaderRuns.ResetIsClean | kext/LatSOFAudio/LatSOFAudioDevice.cpp:484-491 | a stream reset leaves no enable, no tag and no status, acknowledged or not |
| Loader.HandBack | kext/LatSOFAudio/LatSOFAudioDevice.cpp:1294-1804 | for every exit of the load, every interference of AppleHDA and every register the load spares: it ends as AppleHDA's lasting writes leave it; on borrowed registers those are its writes before the snapshot and after the hand-back. Spared are all but the six registers the load changes for good, the borrowed ones if the borrow is sound |
| Loader.SharedAreSpared | kext/LatSOFAudio/LatSOFAudioDevice.cpp:1281-1292 | PPCTL and the SPIB registers are spared by every load that finds the controller at the hand-back if it did at the last look; a controller that was gone then shows no capability, and they are not touched |
| Loader.PpctlComesBack | kext/LatSOFAudio/LatSOFAudioDevice.cpp:1347-1349 | that is exact for PPCTL: with AppleHDA silent it comes back from every board state if and only if so |
| Loader.HandBackIsExact | kext/LatSOFAudio/LatSOFAudioDevice.cpp:1294-1441 | that condition is exact: with AppleHDA silent, a load that borrows gives every register back from every board state if and only if it holds |
| Loader.UnsoundBorrowHarms | kext/LatSOFAudio/LatSOFAudioDevice.cpp:1311-1339 | for each load that breaks it while AppleHDA is silent, a board state, one the last look lets pass, that the load spoils: noise comes back, the firmware's pointers stay, or the loader keeps running |
| Loader.NoiseComesBack | kext/LatSOFAudio/LatSOFAudioDevice.cpp:1331-1341 | borrowed from a controller that is gone and handed back to one that is there, the stream's registers end as the noise that was read; no other register does |
| Loader.EarlyHandBack | kext/LatSOFAudio/LatSOFAudioDevice.cpp:1425-1441 | an early hand-back that lands leaves what was seen at the borrow, and after it nothing but AppleHDA writes the borrowed registers |
| Loader.BorrowLoses | kext/LatSOFAudio/LatSOFAudioDevice.cpp:1325-1441 | what a borrow costs: a register ends as AppleHDA alone would have left it if and only if each bit it changed meanwhile, or that was misread, is written again afterwards |
| Loader.SecondRestoreUndoes | kext/LatSOFAudio/LatSOFAudioDevice.cpp:511-520 | why the snapshot remembers being restored: without that, the cleanup would undo AppleHDA's writes since the hand-back, and is harmless exactly if they changed nothing |
| Loader.InterruptMasked | kext/LatSOFAudio/LatSOFAudioDevice.cpp:1755-1767 | the DSP interrupt after a load, exactly: off if its cleanup lands, whatever it was; else switched on if the load had come that far, else as it was |
| Registers.ResetFrame | kext/LatSOFAudio/LatSOFAudioDevice.cpp:484-491 | a stream reset touches no register of another stream and none shared between streams |
| BufferList.Fill | kext/LatSOFAudio/LatSOFAudioDevice.cpp:1256-1279 | the list walks through the image entry by entry without gap or overlap, each no longer than a page or the physical segment, up to its capacity; what it leaves over is counted and unused entries are empty |
| BufferList.ContiguousWalk | kext/LatSOFAudio/LatSOFAudioDevice.cpp:1267-1278 | in a contiguous image entry k is page k and only the entry that ends the image asks for a completion |
| BufferList.EntriesAreWalked | kext/LatSOFAudio/LatSOFAudioDevice.cpp:1266-1278 | in any memory: each entry lies in its segment and within a page, and asks for a completion exactly if it ends the image |
| BufferList.BytesAreDescribed | kext/LatSOFAudio/LatSOFAudioDevice.cpp:1266-1278 | so each byte of the image that the list reaches is described at its physical address |
| BufferList.ListIsCapped | kext/LatSOFAudio/LatSOFAudioDevice.cpp:1256-1257 | the list covers the whole of a contiguous image if and only if it fits 256 pages |
| Capture.StartFootprint | kext/LatSOFAudio/LatSOFAudioDevice.cpp:2784-2899 | for every outcome of a start, timeouts included: outside stream 6 and its bit of PPCTL, INTCTL and the SPIB enables, everything is as AppleHDA left it |
| Capture.StopFootprint | kext/LatSOFAudio/LatSOFAudioDevice.cpp:2932-2980 | the same for a stop |
| Capture.StartEffect | kext/LatSOFAudio/LatSOFAudioDevice.cpp:2836-2899 | after a start from an idle stream it runs exactly when RUN landed and no halt did, and is decoupled exactly when that landed and no recoupling did |
| Capture.StartIsExact | kext/LatSOFAudio/LatSOFAudioDevice.cpp:2784-2899 | a start leaves the stream running and decoupled if it succeeded, halted and coupled after either timeout, if and only if the controller decoded where that start needed it |
| Capture.StopIsExact | kext/LatSOFAudio/LatSOFAudioDevice.cpp:2932-2980 | a stop leaves the stream halted and coupled if and only if the controller decodes at its two writes |
| Capture.StartPrograms | kext/LatSOFAudio/LatSOFAudioDevice.cpp:2784-2868 | after a successful start whose writes land the stream stands on the driver's ring, format and tag and has no interrupt enabled |
| Capture.StartMasksStream | kext/LatSOFAudio/LatSOFAudioDevice.cpp:2784 | after a start that programs the stream its INTCTL bit is set only if AppleHDA set it meanwhile |
| Capture.StartReadiesStream | kext/LatSOFAudio/LatSOFAudioDevice.cpp:2854-2873 | a successful start takes the stream out of SPIB, acknowledges the DSP and leaves no stale status |
| Capture.StopClearsStream | kext/LatSOFAudio/LatSOFAudioDevice.cpp:2932-2959 | a stop whose writes land leaves neither RUN nor an interrupt enable nor a status, and its INTCTL bit only if AppleHDA set it |
| Capture.StopKeepsRing | kext/LatSOFAudio/LatSOFAudioDevice.cpp:2932-2938 | ring, format and tag of the stream survive a stop |
| Capture.OutputIsKept | kext/LatSOFAudio/LatSOFAudioDevice.cpp:2784-2899 | AppleHDA's first output, running or not, is as AppleHDA left it after any start, if its stream is another one than 6 |
| Capture.OutputIsDisjoint | kext/LatSOFAudio/LatSOFAudioDevice.cpp:1670-1671 | capture always takes stream 6: starts that program it leave AppleHDA's first output alone from every state if and only if the controller does not report 6 input streams |
| SharedRuns.TraceIsRun | kext/LatSOFAudio/LatSOFAudioDevice.cpp:375-384 | the latch machine inside a run with registers, its inputs read off them, is a run of the latch machine, so the results above hold of it |
| LoadBesideCapture.LoadKeepsCapture | kext/LatSOFAudio/LatSOFAudioDevice.cpp:1345-1441 | a load leaves the idle capture stream and its PPCTL bit idle if and only if it does not borrow, or the first output it found is neither 5 nor 6, or it is and PPCTL is given back and, on 6, no noise with RUN in it and no running loader is left |
| LoadBesideCapture.OtherBoardsKeepCapture | kext/LatSOFAudio/LatSOFAudioDevice.cpp:1345-1349 | on a board whose first output is neither 5 nor 6 every load does, sound or not |
| FootprintRuns.HandlerAgrees | kext/LatSOFAudio/LatSOFAudioDevice.cpp:2740-2985 | each start, stop, sleep, wake and notice keeps latches and registers in step if and only if its capture start or stop, if it comes to one, is sound |
| FootprintRuns.StepAgrees | kext/LatSOFAudio/LatSOFAudioDevice.cpp:2208-2504 | each step keeps them in step, ticks included, if its starts and stops are sound, whatever becomes of its load |
| FootprintRuns.FootprintAgrees | kext/LatSOFAudio/LatSOFAudioDevice.cpp:2740-2985 | at every step boundary of every run whose starts and stops are sound: the RUN bit of stream 6 is set if and only if the driver captures, PPCTL bit 6 if and only if it does and its last load found PPCTL; only where the first output is stream 5 or 6 must the loads spare capture |
| FootprintRuns.FootprintIsWhole | kext/LatSOFAudio/LatSOFAudioDevice.cpp:1656-1658 | so where every load that came up found the board's PPCTL, capturing, RUN and PPCTL bit 6 are one and the same fact |
| FootprintRuns.BlindLoadRunsCoupled | kext/LatSOFAudio/LatSOFAudioDevice.cpp:1281-1292 | where they are not: a load that comes up though the controller was gone at its capability walk lets capture run coupled |
| FootprintRuns.InterruptFollowsCleanups | kext/LatSOFAudio/LatSOFAudioDevice.cpp:1755-1767 | over every run, whatever the interrupt was at first: masked if and only if, of the steps that touched it, the last masked it |
| FootprintRuns.InterruptStaysMasked | kext/LatSOFAudio/LatSOFAudioDevice.cpp:1755-1767 | so, over every run whose cleanups land, ADSPIC bit 0 is clear if and only if it was at first or one of them has run |
| DriverRuns.DriverAgrees | kext/LatSOFAudio/LatSOFAudioDevice.cpp:699-732 | the same agreement for every run from the loading of the driver on, with capture off at first |
| NeutralRuns.RoundIsNeutral | kext/LatSOFAudio/LatSOFAudioDevice.cpp:2239-2334 | a retry round with its load and re-arm undoes AppleHDA's writes only where it had borrowed |
| NeutralRuns.RunIsNeutral | kext/LatSOFAudio/LatSOFAudioDevice.cpp:1294-1804 | over every run with any number of loads, starts, stops and sleeps, a register outside stream 6 that the loads spare, and of PPCTL, INTCTL and the SPIB enables every bit but bit 6, holds what AppleHDA's lasting writes made of it since power last went |
| NeutralRuns.NeverBorrowedIsSpared | kext/LatSOFAudio/LatSOFAudioDevice.cpp:1294-1363 | a register that no load borrows or owns is spared by all of them, whatever the controller does |
| AudioDevice.Device.SdRestore | kext/LatSOFAudio/LatSOFAudioDevice.cpp:517-534 | restores in place what the snapshot holds, once, and marks it |
| AudioDevice.Device.PrepareLoad | kext/LatSOFAudio/LatSOFAudioDevice.cpp:1123-1226 | the checked wait, the unchecked settle wait and the writes after it |
| AudioDevice.Device.BorrowStage | kext/LatSOFAudio/LatSOFAudioDevice.cpp:1325-1375 | snapshot and programming, of the stream and through the capabilities that this load found |
| AudioDevice.Device.RunStage | kext/LatSOFAudio/LatSOFAudioDevice.cpp:1404-1441 | the loader's run and the early hand-back |
| AudioDevice.Device.DriveLoader | kext/LatSOFAudio/LatSOFAudioDevice.cpp:1325-1653 | from snapshot to cleanup label, with all four early exits |
| AudioDevice.Device.BorrowOrBail | kext/LatSOFAudio/LatSOFAudioDevice.cpp:1311-1321 | the last look, and the borrow unless it bails; a bail writes no register |
| AudioDevice.Device.LoadWired | kext/LatSOFAudio/LatSOFAudioDevice.cpp:1281-1804 | from the last look to the return: bail or borrow, cleanup, and what is remembered of the board |
| AudioDevice.Device.InitDSP | kext/LatSOFAudio/LatSOFAudioDevice.cpp:1078-1804 | a whole load: latches, registers, what it learns of the board and its result as specified; every buffer it wires it unwires on every exit |
| AudioDevice.Device.ScheduleDspRecovery | kext/LatSOFAudio/LatSOFAudioDevice.cpp:1935-1960 | the fourth episode in a row is refused, the first three re-arm the rebuild with full budgets |
| AudioDevice.Device.StartCaptureGated | kext/LatSOFAudio/LatSOFAudioDevice.cpp:2740-2917 | refusal, early success, both timeouts and success, in latches, registers and answer |
| AudioDevice.Device.StopCaptureGated | kext/LatSOFAudio/LatSOFAudioDevice.cpp:2919-2985 | drops the latch first; a stop whose messages time out still halts the stream and schedules the rebuild |
| AudioDevice.Device.EngineStartCapture | kext/LatSOFAudio/LatSOFAudioDevice.cpp:3060-3066 | a failed engine start leaves no latch behind |
| AudioDevice.Device.PerformAudioEngineStart | kext/LatSOFAudio/LatSOFKernelAudio.cpp:330-346 | the engine runs only after a successful capture start |
| AudioDevice.Device.PerformAudioEngineStop | kext/LatSOFAudio/LatSOFKernelAudio.cpp:367-383 | the engine stops first, then capture |
| AudioDevice.Device.CompleteDeferredResume | kext/LatSOFAudio/LatSOFKernelAudio.cpp:407-438 | a running or clientless engine is left alone; a nested pause is only drained, and may send the resume request back |
| AudioDevice.Device.RunDeferredResume | kext/LatSOFAudio/LatSOFAudioDevice.cpp:2356-2384 | the resume executor with its guards and its two ways of giving up |
| AudioDevice.Device.CountWaits | kext/LatSOFAudio/LatSOFAudioDevice.cpp:2241-2257 | the patience counter and the deferral it decides |
| AudioDevice.Device.TryLoad | kext/LatSOFAudio/LatSOFAudioDevice.cpp:2265-2271 | a genuine attempt costs a try |
| AudioDevice.Device.FinishRound | kext/LatSOFAudio/LatSOFAudioDevice.cpp:2271-2310 | success ends the rounds and starts the latched session, the twelfth failure ends them too |
| AudioDevice.Device.RetryRound | kext/LatSOFAudio/LatSOFAudioDevice.cpp:2239-2334 | one retry round on latches and registers |
| AudioDevice.Device.RearmCapture | kext/LatSOFAudio/LatSOFAudioDevice.cpp:2279-2289 | the latched session is started and forgotten only on success |
| AudioDevice.Device.RetryTick | kext/LatSOFAudio/LatSOFAudioDevice.cpp:2212-2334 | the retry engine's share of a tick: every third one runs a round |
| AudioDevice.Device.SwitchOutput | kext/LatSOFAudio/LatSOFAudioDevice.cpp:2463-2501 | the jack branch behind its guards |
| AudioDevice.Device.JackPoll | kext/LatSOFAudio/LatSOFAudioDevice.cpp:2208-2504 | the whole 500 ms tick is one step of the specified machine |
| AudioDevice.Device.SetPowerStateGated | kext/LatSOFAudio/LatSOFAudioDevice.cpp:1982-2077 | sleep keeps the session latched; a wake refills the budgets only after a real sleep, on a remapped device that is down |
| AudioDevice.Device.Dispatch | kext/LatSOFAudio/LatSOFAudioDevice.cpp:2740-2985 | every handler is one step of the machine whose runs the results above are about |
| AudioDevice.Device.FirstLoad | kext/LatSOFAudio/LatSOFAudioDevice.cpp:719-731 | the first load: up, backed off with fresh rounds, or failed |
| AudioDevice.Device.Start | kext/LatSOFAudio/LatSOFAudioDevice.cpp:683-732 | loading the driver: deferral, load, borrow-time bail or failure, in latches and registers |
| Registers.RegisterFile.Reset | kext/LatSOFAudio/LatSOFAudioDevice.cpp:484-491 | the stream reset in place, acknowledged or not |
| SampleClock.ReadPositionAtEdge | kext/LatSOFAudio/LatSOFKernelAudio.cpp:295-328 | the spin ends at its first read that is invalid, has moved within a short bracket, or is past the deadline; it ends within 401 reads |
| SampleClock.EdgeIsGenuine | kext/LatSOFAudio/LatSOFKernelAudio.cpp:295-328 | an edge is a valid read with another position than the first, bracketed within 20 microseconds and dated by its end; all reads before it were valid and showed the old position or were too long; a miss is past 2 ms |
| SampleClock.SpinReportsRejects | kext/LatSOFAudio/LatSOFKernelAudio.cpp:316-321 | the rejects reported are the reads with too long a bracket |
| SampleClock.PositionsInTheRing | kext/LatSOFAudio/LatSOFKernelAudio.cpp:440-444 | a position at or past the ring's size counts as frame 0 |
| SampleClock.StepUnwraps | kext/LatSOFAudio/LatSOFKernelAudio.cpp:485-501 | one poll counts no lap too many, and the right number if and only if it was in time |
| SampleClock.LapsAreExact | kext/LatSOFAudio/LatSOFKernelAudio.cpp:485-501 | over any sequence of polls and outages the laps counted never exceed the true ones, and equal them if and only if no poll was late: a missed lap is never made up |
| SampleClock.UnwrappingIsExact | kext/LatSOFAudio/LatSOFKernelAudio.cpp:344-358 | laps and ring position since the engine start make up the true frame count at the last accepted read, edge reads included, if and only if no poll was late |
| SampleClock.StampIsTrue | kext/LatSOFAudio/LatSOFKernelAudio.cpp:248-257 | a stamp built from a read some frames into a lap is the true time of the lap's first frame, within the read's delay, the rate error of a lap and a nanosecond |
| SampleClock.LoopTimesAreTrue | kext/LatSOFAudio/LatSOFKernelAudio.cpp:485-501 | over every run of in-time polls each time handed to the family is the true time of its lap's first frame, to that accuracy |
| SampleClock.WrapIsTrue | kext/LatSOFAudio/LatSOFKernelAudio.cpp:485-501 | a wrap hands out a true time whatever was handed out before, an outage included |
| SampleClock.SessionIsTrue | kext/LatSOFAudio/LatSOFKernelAudio.cpp:344-358 | a session from its start: counted loops and position are the true frame count, and the time handed out is the true start of the present lap |
| SampleClock.PeriodIsARing | kext/LatSOFAudio/LatSOFKernelAudio.cpp:36 | the free-run period is the nominal time of a ring |
| SampleClock.FreeRunHandsOutStamps | kext/LatSOFAudio/LatSOFKernelAudio.cpp:474-478 | in an outage the time handed out is that of the last stamp |
| SampleClock.CloseReadsAreInTime | kext/LatSOFAudio/LatSOFKernelAudio.cpp:483-484 | accepted reads less than one ring apart are in time |
| SampleClock.StampsStayBehind | kext/LatSOFAudio/LatSOFKernelAudio.cpp:248-257 | no stamp is later than the clock, so the outage arithmetic never goes negative |
| SampleClock.OutagePoll | kext/LatSOFAudio/LatSOFKernelAudio.cpp:474-480 | one outage poll: at most one stamp, exactly one period on, and less than a period behind afterwards if and only if the poll came within two periods of the last stamp |
| SampleClock.FreeRunKeepsTime | kext/LatSOFAudio/LatSOFKernelAudio.cpp:459-483 | through a whole outage with polls at most a period apart: stamps exactly one period apart, one per counted loop, never ahead of the clock and never a period behind it, and no lap is counted as real |
| SampleClock.LagIsBounded | kext/LatSOFAudio/LatSOFKernelAudio.cpp:485-501 | while valid polls are in time and the hardware keeps pace up to a slack, no poll comes later than a period and the slack after the last stamp |
| SampleClock.OutageIsEntered | kext/LatSOFAudio/LatSOFKernelAudio.cpp:459-483 | so an outage entered from such polls keeps time whenever its first poll comes within a period, less the slack, of the last valid one |
| SampleClock.ReturnCountsALoop | kext/LatSOFAudio/LatSOFKernelAudio.cpp:485-501 | the first valid poll after an outage counts one more loop exactly if it finds a lower position than the one before the outage, less than a period after the last free-run stamp exactly if it comes in that period |
| SampleClock.EngineClock.CatchEdge | kext/LatSOFAudio/LatSOFKernelAudio.cpp:295-328 | the edge caught, if the edge lock is on, and the miss counter untouched by a catch |
| SampleClock.EngineClock.Start | kext/LatSOFAudio/LatSOFKernelAudio.cpp:344-358 | the anchor of a session: the caught edge, or the entry time back-dated by the position |
| SampleClock.EngineClock.WrapTimerFired | kext/LatSOFAudio/LatSOFKernelAudio.cpp:446-503 | the 100 ms poll: free-running without a position, unwrapping with one |
| SampleClock.EngineClock.Stamp | kext/LatSOFAudio/LatSOFKernelAudio.cpp:248-257 | a stamp is back-dated, the remembered stamp time is not |
| DcFilter.OutputIsTheResponse | kext/LatSOFAudio/LatSOFKernelAudio.cpp:542-549 | for every stream: the output is the input's changes weighted with the pole to the power of their age, up to 85 flush thresholds |
| DcFilter.UnflushedOutputIsExact | kext/LatSOFAudio/LatSOFKernelAudio.cpp:542-549 | and exactly that while it stays clear of the threshold |
| DcFilter.StepResponse | kext/LatSOFAudio/LatSOFKernelAudio.cpp:540-544 | from silence the samples 1 and 1 give 0.98822 as second output |
| DcFilter.NoSmallOutputs | kext/LatSOFAudio/LatSOFKernelAudio.cpp:546-548 | no output lies between zero and its filter's flush threshold |
| DcFilter.GainIsFaithful | kext/LatSOFAudio/LatSOFKernelAudio.cpp:550-553 | the client gets each output times the gain, or full scale with its sign where that is more |
| DcFilter.RequestReadsTheRing | kext/LatSOFAudio/LatSOFKernelAudio.cpp:508-543 | left samples come from the even places of the ring, right ones from the odd, as fractions of two to the 31 |
| DcFilter.PluginReadsTheRing | plugin/LatSOFAudioPlugin.c:4216-4222 | the plugin's samples likewise, round the seam, with its own divisor |
| DcFilter.OutputsAreBounded | kext/LatSOFAudio/LatSOFKernelAudio.cpp:542-549 | inputs within m give outputs within 2m before the gain, for every stream and length, the flush included |
| DcFilter.BoundIsReached | kext/LatSOFAudio/LatSOFKernelAudio.cpp:542-549 | the factor 2 is tight |
| DcFilter.ConstantIsSilenced | kext/LatSOFAudio/LatSOFKernelAudio.cpp:546-548 | a constant input reaches exactly zero output within 4098 samples, whatever came before, and stays there |
| DcFilter.SamplesAreWithinScale | plugin/LatSOFAudioPlugin.c:4221-4222 | 32-bit samples stay within full scale; the plugin's divisor lets exactly the lowest one exceed it, by less than a billionth |
| DcFilter.BlocksAreOnePass | kext/LatSOFAudio/LatSOFKernelAudio.cpp:526-562 | whatever requests come in whatever order, the ones that advance the filter together get exactly one pass of it over the frames they read |
| DcFilter.ChannelsAreAlike | kext/LatSOFAudio/LatSOFKernelAudio.cpp:542-557 | the two channels do not mix, and the right one is treated as the left one |
| DcFilter.StreamIsContiguous | kext/LatSOFAudio/LatSOFKernelAudio.cpp:536-562 | from an engine start on, or from where the filter stands, the advancing requests follow each other round the ring without a gap |
| DcFilter.FilterLoop | kext/LatSOFAudio/LatSOFKernelAudio.cpp:542-557 | the sample loop filters both channels and interleaves the clipped result |
| DcFilter.FilterBlock | kext/LatSOFAudio/LatSOFKernelAudio.cpp:542-557 | the same for a block of the ring |
| DcFilter.InputFilter.ConvertInputSamples | kext/LatSOFAudio/LatSOFKernelAudio.cpp:526-562 | the client gets the filtered block from the current state; only the request that continues the stream moves the state |
| DcFilter.InputFilter.constructor | kext/LatSOFAudio/LatSOFKernelAudio.cpp:338-339 | an engine start clears the filter and lets the first request say where the stream begins |
| DcFilter.SplitReadsFilterAlike | plugin/LatSOFAudioPlugin.c:4216-4237 | a read over the seam of the ring filters exactly as two reads split there |
| DcFilter.PluginFilter.ReadInput | plugin/LatSOFAudioPlugin.c:4201-4243 | the plugin's read: one pass continued from the last read, round the ring; silence without a connection |
| ZeroTimestamp.ErrorIsBounded | plugin/LatSOFAudioPlugin.c:4083-4092 | with ring periods off by at most d and wraps observed within J, after any number of wraps the estimate is late by at most the larger of the start error and 7d + J, and early by at most the larger of the start error and 7d + J + 8 ticks, the 8 for the truncation |
| ZeroTimestamp.ErrorContracts | plugin/LatSOFAudioPlugin.c:4089-4091 | whatever the error exceeds the limit by shrinks by a factor 7/8 per wrap |
| ZeroTimestamp.WrapsAreExact | plugin/LatSOFAudioPlugin.c:4083-4096 | over every run, outages included: the rings counted never exceed those the hardware finished and one phantom per outage that begins off position 0, and equal them if and only if no two queries of a running DSP were a ring apart |
| ZeroTimestamp.TimeFollowsWraps | plugin/LatSOFAudioPlugin.c:4072-4096 | the time handed out changes only at wraps and is the filter of the observed wrap times |
| ZeroTimestamp.HardwareClock.GetZeroTimeStamp | plugin/LatSOFAudioPlugin.c:4019-4119 | the answer with a position, and the nominal fallback without one |
| ZeroTimestamp.NominalIsTheLine | plugin/LatSOFAudioPlugin.c:4102-4109 | without hardware ring n is handed out at the anchor and n times a ring's nominal time, to the whole tick below |
| ZeroTimestamp.NominalKeepsTime | plugin/LatSOFAudioPlugin.c:4098-4110 | and through any run of queries dense enough the ring handed out is the one now stands in |
| ZeroTimestamp.PairsContract | plugin/LatSOFAudioPlugin.c:4072-4096 | since the last start of the hardware, after an outage or not, for queries less than a ring apart: the sample time handed out is the current ring's, and the host time with it is the true time of that very frame up to 8 rings' worth of rate error, the query delay, 9 ticks, and what is left of the error at the beginning after losing an eighth per ring |
| ZeroTimestamp.PairsAreClose | plugin/LatSOFAudioPlugin.c:4072-4096 | from a start under a running DSP to its first outage the error at the beginning drops out |
| ZeroTimestamp.OutageCountsOnce | plugin/LatSOFAudioPlugin.c:4058-4088 | while the DSP is down the driver answers position 0: an outage makes the plugin count one ring the hardware never finished if it begins off position 0, none otherwise, however often it is queried |
| ZeroTimestamp.PhantomRunsAhead | plugin/LatSOFAudioPlugin.c:4083-4092 | such a ring is handed out with a time ahead of now by seven eighths of what was left of it |
| ZeroTimestamp.CorrectIsEighthStep | plugin/LatSOFAudioPlugin.c:4089-4091 | the corrected time is the one whole number at or below seven parts prediction and one part observation; no other number is |
| ZeroTimestamp.HardwareClock.CorrectWrap | plugin/LatSOFAudioPlugin.c:4089-4091 | eight times the new time lies at or below, and less than 8 ticks below, seven times the prediction plus the observation |
| ZeroTimestamp.HardwareClock.StartIO | plugin/LatSOFAudioPlugin.c:3937-3956 | the first client's start forgets both clocks |
| RateEnforcer.CorrectionsWaitForQuiet | contrib/latsof-setrate.c:219-244 | in every trace, no correction within the settle time in force, never less than 8 seconds, of any notification or earlier correction |
| RateEnforcer.FirstCorrectionWaits | contrib/latsof-setrate.c:288-289 | nor within 8 seconds of the start |
| RateEnforcer.CorrectionsAreExact | contrib/latsof-setrate.c:219-244 | over every trace: a tick corrects if and only if the rate is wrong and nothing moved for 8 seconds, or for 60 after six corrections in a window |
| RateEnforcer.WindowsAreExact | contrib/latsof-setrate.c:229 | a correction opens a new window if and only if the present one is more than 60 seconds old |
| RateEnforcer.BurstsAreSmall | contrib/latsof-setrate.c:229-230 | a burst window never sees more than six corrections |
| RateEnforcer.CountIsInWindow | contrib/latsof-setrate.c:229-230 | the counter is the number of corrections since the window opened |
| RateEnforcer.SixthCorrectionBacksOff | contrib/latsof-setrate.c:229-240 | the sixth correction of a window is followed by 60 seconds without one; the next opens a new window and ends the back-off |
| RateEnforcer.WrongAllAlong | contrib/latsof-setrate.c:165-173 | if every rate change is announced, a corrected rate was wrong through the whole settle window |
| RateEnforcer.WritesOnlyWhenWrong | contrib/latsof-setrate.c:127-150 | a pass writes something if and only if some device has the wrong rate |
| RateEnforcer.PinningTerminates | contrib/latsof-setrate.c:127-155 | after a pass the rate is wrong if and only if a device refused, and a second pass over accepting devices writes nothing |
| RateEnforcer.PinningIsConfined | contrib/latsof-setrate.c:132-150 | a pass leaves alone every device that is no target, cannot be named or read, or has the rate, and changes nothing but the rate of the others |
| RateEnforcer.WrongRates | contrib/latsof-setrate.c:204-217 | the rate is wrong if and only if a readable target among the first 64 devices has another |
| RateEnforcer.Enforcer.RateIsWrong | contrib/latsof-setrate.c:204-217 | wrong if and only if one of the first 64 devices is a readable target at another rate |
| RateEnforcer.Enforcer.PinAll | contrib/latsof-setrate.c:129-155 | every such device is written and no other |
| RateEnforcer.Enforcer.OnChange | contrib/latsof-setrate.c:195-201 | a notification acts on nothing but the settle window |
| RateEnforcer.Enforcer.EnforceTick | contrib/latsof-setrate.c:219-244 | a tick is one step of the machine, and writes devices only if it corrects |

## Left out

- PCI configuration, BAR mapping, memory allocation, properties and log strings: each is a success or failure given from outside.
- Firmware contents and message payloads: a message is answered or times out; the error field of a capture reply is only logged by the code.
- The loader's writes to ADSPCS, the SSPs, CGCTL, HIPCIDR and HIPCIDA, and the core power-up: no other handler depends on their contents.
- The moment between the last look at the output and the snapshot is atomic here; in the code it lasts microseconds.
- AudioDevice.Device.InitDSP: wires and unwires named buffers; the allocator behind them is not part of this model.
- Registers.RegisterFile.Reset: a stream reset is acknowledged or not as a whole; the model does not let the controller enter the reset after the driver stopped waiting.
- Loader.HandBack: from one wait of a load to the next the controller decodes or does not as a whole, and AppleHDA's writes at a wait are those that land; the same holds of capture starts and stops.
- Addresses and lengths of the firmware image and of the capture ring are words given from outside; that the last entry written is one less than the list's count is not part of this model.
- A register is the set of its one bits, without its width; the 24-bit control register is kept as the three bytes the code writes.
- The latches are grouped into records (`Session`, `Rebuild`, `Resume`, `Setup`), and counters are unbounded naturals.
- AudioDevice.Device.CompleteDeferredResume: the family's state is read anew at each tick, so the pauses it drains are not followed from tick to tick.
- IOAudioFamily itself: its engine state, client count and pause count are inputs; that it stops a running engine before a sleep is a precondition of one lemma.
- stop() and teardown, shutdownDSPGated, clamshell mute, codec keep-alive, I2C, and of the playback path all but the stop in the jack branch: guarded register pokes or unreachable on this board.
- The capture ring's own buffer list and the clearing of the ring after a stop.
- The gain polynomial: the gain is a parameter of a block.
- Floating-point rounding: samples, clock ticks and rates are reals.
- SampleClock.EngineClock.WrapTimerFired: models the poll of a running engine and takes a stamp time not after the clock, which SampleClock.StampsStayBehind establishes; times are nanoseconds as natural numbers, without the conversion to host ticks.
- SampleClock.ReadPositionAtEdge: bounds the bracket of the read that catches the edge, as the code does, and says nothing of the age of the edge.
- ZeroTimestamp.HardwareClock.GetZeroTimeStamp: the back-dated time does not wrap around below zero.
- The plugin's property tables, its COM entry points, its mixer write (whose buffer is never mapped) and its mutexes.
- RateEnforcer.Enforcer.OnChange: does not model the renewal of the listeners, which changes no state the ticks read.
- The enforcer's one-shot and report-only modes and the unconditional pass before its first tick; its wall clock is taken to advance.
- Scripts, layout tools and the codec wake daemon.
