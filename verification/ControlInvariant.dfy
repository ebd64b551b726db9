/** What every step of the latch machine keeps. */
module ControlInvariant {
  import opened RebuildControl

  ghost predicate Inv(c: Control) {
    && (c.cap.capturing ==> c.cap.ready)
    && (c.retry.pending ==> !c.cap.ready && c.retry.tries < MAX_TRIES)
    && (c.cap.ready ==> c.setup.mapped)
    && c.setup.rings
    && !c.cap.playing
    && !c.setup.i2cMapped
    && c.retry.divider < TICKS_PER_ROUND
    && (c.resume.pending ==> c.resume.tries < RESUME_MAX_TRIES)
  }

  lemma StartEstablishes(strict: bool, ringsAllocated: bool, st: Busy, load: LoadFacts)
    ensures var s := Start(strict, ringsAllocated, st, load);
            s.Some? ==> Inv(s.value) && !s.value.cap.capturing && !s.value.cap.demand
  {
  }

  /** When loading the driver fails: without the capture rings, and when a first load
      that is neither put off nor backs off does not come up. */
  lemma LoadingFails(strict: bool, rings: bool, st: Busy, load: LoadFacts)
    ensures Start(strict, rings, st, load).None? <==>
            !rings ||
            (st != Running && !(st == Programmed && strict) &&
             !(load.reachesBorrow && (load.atBorrow == Running || (load.atBorrow == Programmed && strict))) &&
             !(load.reachesBorrow && load.boots))
  {
  }

  /** And what a success leaves: rounds armed with nothing spent, or a DSP that is up. */
  lemma LoadingLeaves(strict: bool, rings: bool, st: Busy, load: LoadFacts)
    requires Start(strict, rings, st, load).Some?
    ensures var c := Start(strict, rings, st, load).value;
            c.setup.strict == strict && c.setup.mapped && !c.setup.sleptOnce && !c.resume.pending &&
            !c.resume.engineRunning && !c.resume.sleepImminent && c.retry.episodes == 0 &&
            c.retry.tries == c.retry.waits == c.retry.divider == 0 && (c.retry.pending <==> !c.cap.ready)
  {
  }

  lemma StartCaptureKeeps(c: Control, ipc: StartIpc)
    requires Inv(c)
    ensures Inv(StartCapture(c, ipc).c)
  {
  }

  lemma StopCaptureKeeps(c: Control, answered: bool)
    requires Inv(c)
    ensures Inv(StopCapture(c, answered))
  {
  }

  lemma PerformEngineStartKeeps(c: Control, ipc: StartIpc)
    requires Inv(c)
    ensures Inv(PerformEngineStart(c, ipc).c)
  {
    StartCaptureKeeps(c, ipc);
  }

  lemma RoundKeeps(c: Control, st: Busy, load: LoadFacts, ipc: StartIpc)
    requires Inv(c) && RetryArmed(c)
    ensures Inv(Round(c, st, load, ipc))
  {
    var p := CountWaits(c, st);
    if Attempts(p, st) {
      var l := LoadDsp(CountTry(p), load);
      if l.up {
        StartCaptureKeeps(ClearPending(l.c), ipc);
      }
    }
  }

  lemma RetryKeeps(c: Control, st: Busy, load: LoadFacts, ipc: StartIpc)
    requires Inv(c)
    ensures Inv(Retry(c, st, load, ipc))
  {
    if RoundDue(c) {
      RoundKeeps(c.(retry := c.retry.(divider := 0)), st, load, ipc);
    }
  }

  lemma RunResumeKeeps(c: Control, v: EngineView, ipc: StartIpc)
    requires Inv(c)
    ensures Inv(RunResume(c, v, ipc))
  {
    PerformEngineStartKeeps(c, ipc);
  }

  lemma StepKeeps(c: Control, e: Event)
    requires Inv(c)
    ensures Inv(Step(c, e))
  {
    match e
    case Tick(st, load, rearm, view, resume, _) =>
      RetryKeeps(c, st, load, rearm);
      RunResumeKeeps(Retry(c, st, load, rearm), view, resume);
    case ClientStart(ipc) => StartCaptureKeeps(c, ipc);
    case ClientStop(answered) => StopCaptureKeeps(c, answered);
    case EngineStart(ipc) => PerformEngineStartKeeps(c, ipc);
    case EngineStop(answered) => StopCaptureKeeps(c.(resume := c.resume.(engineRunning := false)), answered);
    case _ =>
  }

  /** The jack branch stops and reprograms AppleHDA's output stream. It is never taken. */
  lemma JackIsQuiet(c: Control, e: Event)
    requires Inv(c) && e.Tick?
    ensures var r := RunResume(Retry(c, e.st, e.load, e.rearm), e.view, e.resume);
            Inv(r) && !SwitchesOutput(r, e.jack) && Step(c, e) == r
  {
    RetryKeeps(c, e.st, e.load, e.rearm);
    RunResumeKeeps(Retry(c, e.st, e.load, e.rearm), e.view, e.resume);
  }

  lemma RetryKeepsFlags(c: Control, st: Busy, load: LoadFacts, ipc: StartIpc)
    ensures var s := Retry(c, st, load, ipc); s.setup == c.setup && s.resume == c.resume
  {
  }

  lemma ResumeKeepsFlags(c: Control, v: EngineView, ipc: StartIpc)
    ensures var s := RunResume(c, v, ipc); s.setup == c.setup && s.resume.sleepImminent == c.resume.sleepImminent
  {
  }

  lemma StepKeepsPolicy(c: Control, e: Event)
    ensures Step(c, e).setup.strict == c.setup.strict
  {
    if e.Tick? {
      RetryKeepsFlags(c, e.st, e.load, e.rearm);
      ResumeKeepsFlags(Retry(c, e.st, e.load, e.rearm), e.view, e.resume);
    }
  }

  lemma {:induction false} RunKeeps(c: Control, events: seq<Event>)
    requires Inv(c)
    ensures Inv(Run(c, events))
    decreases |events|
  {
    if events != [] {
      StepKeeps(c, events[0]);
      RunKeeps(Step(c, events[0]), events[1..]);
    }
  }

  /** In no run of the driver does a tick reach the writes of the jack branch. */
  lemma PlaybackIsUnreachable(
    strict: bool, rings: bool, st: Busy, load: LoadFacts, events: seq<Event>, e: Event)
    requires Start(strict, rings, st, load).Some? && e.Tick?
    ensures var c := Run(Start(strict, rings, st, load).value, events);
            Inv(c) && !SwitchesOutput(RunResume(Retry(c, e.st, e.load, e.rearm), e.view, e.resume), e.jack)
  {
    var first := Start(strict, rings, st, load).value;
    StartEstablishes(strict, rings, st, load);
    RunKeeps(first, events);
    JackIsQuiet(Run(first, events), e);
  }
}
