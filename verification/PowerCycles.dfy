/** What sleep and wake do: every sleep parks, every wake after one rebuilds. */
module PowerCycles {
  import opened RebuildControl
  import opened ControlInvariant
  import opened RebuildBudgets
  import opened DemandRuns
  import opened RebuildResponse

  // ---------- a sleep and the wake after it ----------

  /** A sleep takes the DSP down, cancels the rounds and remembers the session. */
  lemma SleepParks(c: Control)
    requires Inv(c)
    ensures var s := Step(c, Sleep);
            !s.cap.ready && !s.cap.capturing && !s.retry.pending && (s.cap.demand <==> Held(c)) &&
            s.resume == c.resume
  {
  }

  /** The wake after it arms a cold rebuild with fresh budgets, keeps the session and
      takes up a session the engine holds. */
  lemma WakeAfterSleepArms(c: Control, held: bool)
    requires Inv(c)
    ensures var s := Step(Step(c, Sleep), Wake(true, held));
            RetryArmed(s) && s.retry == Armed(0, false) && !s.cap.capturing && (s.cap.demand <==> Held(c)) &&
            (s.resume.pending <==> c.resume.pending || held) && s.resume.tries == 0 && !s.resume.sleepImminent
  {
  }

  /** A wake that cannot map the device again leaves nothing armed but loses nothing:
      the next wake that can rebuilds. */
  lemma FailedRemapIsRepaired(c: Control, held: bool, again: bool)
    requires Inv(c)
    ensures var f := Step(Step(c, Sleep), Wake(false, held));
            var s := Step(f, Wake(true, again));
            !RetryArmed(f) && !f.setup.mapped && (f.cap.demand <==> Held(c)) &&
            RetryArmed(s) && s.retry == Armed(0, false) && (s.cap.demand <==> Held(c)) &&
            (s.resume.pending <==> c.resume.pending || again)
  {
  }

  /** After any sleep and wake, when nothing fails: within 3 ticks, or 63 if borrowing
      is strict, the DSP serves the session held before the sleep or asked for since. */
  lemma SleepIsServed(c: Control, held: bool, events: seq<Event>)
    requires Inv(c) && Cooperative(events) && Ticks(events) >= (if c.setup.strict then 63 else 3)
    ensures var s := Step(Step(c, Sleep), Wake(true, held));
            Served(Run(s, events), LastWord(Held(c), s, events))
  {
    var s := Step(Step(c, Sleep), Wake(true, held));
    WakeAfterSleepArms(c, held);
    StepKeeps(c, Sleep);
    StepKeeps(Step(c, Sleep), Wake(true, held));
    assert Patient(s) == c.setup.strict;
    FreshArmingResponds(s, events);
  }

  // ---------- when a wake rebuilds ----------

  predicate SleepsIn(events: seq<Event>) {
    exists i :: 0 <= i < |events| && events[i].Sleep?
  }

  lemma StepKeepsFlags(c: Control, e: Event)
    ensures Step(c, e).setup.sleptOnce <==> c.setup.sleptOnce || e.Sleep?
    ensures Step(c, e).resume.sleepImminent <==>
            e.WillSleep? || (c.resume.sleepImminent && !e.WakeNotice? && !e.Wake?)
  {
    if e.Tick? {
      var s := Retry(c, e.st, e.load, e.rearm);
      RetryKeepsFlags(c, e.st, e.load, e.rearm);
      ResumeKeepsFlags(s, e.view, e.resume);
    }
  }

  lemma {:induction false} SleptOnceIsRemembered(c: Control, events: seq<Event>)
    ensures Run(c, events).setup.sleptOnce <==> c.setup.sleptOnce || SleepsIn(events)
    decreases |events|
  {
    if events != [] {
      StepKeepsFlags(c, events[0]);
      SleptOnceIsRemembered(Step(c, events[0]), events[1..]);
      SleepsInRest(events);
    }
  }

  lemma SleepsInRest(events: seq<Event>)
    requires events != []
    ensures SleepsIn(events) <==> events[0].Sleep? || SleepsIn(events[1..])
  {
    if i :| 0 <= i < |events[1..]| && events[1..][i].Sleep? {
      assert events[i + 1].Sleep?;
    }
    if i :| 0 < i < |events| && events[i].Sleep? {
      assert events[1..][i - 1].Sleep?;
    }
  }

  /** In every run of the driver: a power-up begins a rebuild if and only if the DSP is
      down, the device maps and the machine has slept since the driver was loaded. */
  lemma WakesRebuildAfterSleeps(
    strict: bool, rings: bool, st: Busy, load: LoadFacts, events: seq<Event>, remapped: bool, held: bool)
    requires Start(strict, rings, st, load).Some?
    ensures var c := Run(Start(strict, rings, st, load).value, events);
            var s := Step(c, Wake(remapped, held));
            if remapped && !c.cap.ready && SleepsIn(events)
            then RetryArmed(s) && s.retry == Armed(0, false) && s.resume.tries == 0
            else s.retry == c.retry
  {
    SleptOnceIsRemembered(Start(strict, rings, st, load).value, events);
  }

  // ---------- the engine across a sleep ----------

  /** Is the system going to sleep? The last of the power notices and wakes says it. */
  function GoingToSleep(imminent: bool, events: seq<Event>): bool
    decreases |events|
  {
    if events == [] then imminent
    else
      GoingToSleep(if events[0].WillSleep? then true
                   else imminent && !events[0].WakeNotice? && !events[0].Wake?, events[1..])
  }

  lemma {:induction false} NoticesAreFollowed(c: Control, events: seq<Event>)
    ensures Run(c, events).resume.sleepImminent <==> GoingToSleep(c.resume.sleepImminent, events)
    decreases |events|
  {
    if events != [] {
      StepKeepsFlags(c, events[0]);
      NoticesAreFollowed(Step(c, events[0]), events[1..]);
    }
  }

  /** What the resume executor waits for, one by one. */
  lemma ExecutorWaits(c: Control, v: EngineView, ipc: StartIpc)
    requires RunResume(c, v, ipc) != c
    ensures c.resume.pending && c.cap.ready && !c.retry.pending && !c.resume.sleepImminent && v.published && !v.asleep
  {
  }

  lemma ParkedTick(c: Control, e: Event)
    requires Inv(c) && c.resume.sleepImminent && e.Tick?
    ensures Step(c, e) == Retry(c, e.st, e.load, e.rearm)
  {
    JackIsQuiet(c, e);
    RetryKeepsFlags(c, e.st, e.load, e.rearm);
  }

  /** No deferred resume touches anything from the sleep notice to the wake or its
      abort, so none starts capture just before power goes. */
  lemma NoResumeIntoSleep(c: Control, events: seq<Event>, e: Event)
    requires Inv(c) && GoingToSleep(c.resume.sleepImminent, events) && e.Tick?
    ensures var r := Run(c, events);
            Step(r, e) == Retry(r, e.st, e.load, e.rearm)
  {
    NoticesAreFollowed(c, events);
    RunKeeps(c, events);
    ParkedTick(Run(c, events), e);
  }

  /** Which attempts start the engine: those on a held engine that is not running and
      has no more than one pause level left. */
  lemma StartsHeldEngines(c: Control, v: EngineView)
    ensures StartsEngine(c, v) <==>
            c.resume.pending && c.cap.ready && !c.retry.pending && !c.resume.sleepImminent &&
            v.published && !v.asleep && v.hasEngine && v.family.clients > 0 &&
            (v.family.state == Stopped || v.family.state == Resumed ||
             (v.family.state == Paused && v.family.pauses <= 1))
  {
  }

  /** Without an engine, with one that runs, or with one that nobody holds, the request
      ends and nothing else happens. */
  lemma IdleRequestsEnd(c: Control, v: EngineView, ipc: StartIpc)
    requires ResumeReady(c, v) && (!v.hasEngine || v.family.state == Active || v.family.clients == 0)
    ensures RunResume(c, v, ipc) == c.(resume := c.resume.(pending := false))
  {
  }

  /** Such an attempt whose messages are answered ends the request with the engine
      running; one level of a deeper pause is only given back. */
  lemma HeldEnginesRun(c: Control, v: EngineView, ipc: StartIpc)
    requires Inv(c) && StartsEngine(c, v) && ipc.Answered?
    ensures var s := RunResume(c, v, ipc);
            s.resume.engineRunning && s.cap.capturing && !s.resume.pending
  {
  }

  lemma DeepPausesAreKept(c: Control, v: EngineView, ipc: StartIpc)
    requires ResumeReady(c, v) && v.hasEngine && v.family.clients > 0
    requires v.family.state == Paused && v.family.pauses > 1
    ensures var s := RunResume(c, v, ipc);
            s.cap == c.cap && s.retry == c.retry && s.resume.engineRunning == c.resume.engineRunning &&
            s.resume.tries == (if v.family.echoes then 1 else c.resume.tries + 1)
  {
  }

  /** Does the engine run? The last step that stopped or started it says so. */
  function EngineWord(running: bool, c: Control, events: seq<Event>): bool
    decreases |events|
  {
    if events == [] then running
    else
      var e := events[0];
      EngineWord(if Launches(c, e) && !LaunchFails(c, e) then true else running && !e.EngineStop?,
                 Step(c, e), events[1..])
  }

  lemma StepRunsEngine(c: Control, e: Event)
    requires Inv(c)
    ensures Step(c, e).resume.engineRunning <==>
            (Launches(c, e) && !LaunchFails(c, e)) || (c.resume.engineRunning && !e.EngineStop?)
  {
    if e.Tick? {
      JackIsQuiet(c, e);
      RetryKeeps(c, e.st, e.load, e.rearm);
      RetryKeepsFlags(c, e.st, e.load, e.rearm);
    }
  }

  lemma {:induction false} EngineFollowsItsStarts(c: Control, events: seq<Event>)
    requires Inv(c)
    ensures Run(c, events).resume.engineRunning <==> EngineWord(c.resume.engineRunning, c, events)
    decreases |events|
  {
    if events != [] {
      StepRunsEngine(c, events[0]);
      StepKeeps(c, events[0]);
      EngineFollowsItsStarts(Step(c, events[0]), events[1..]);
    }
  }
}
