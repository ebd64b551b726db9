/** Capture started for the kernel audio engine never outlives it, and a resume that
    was asked for is carried out or given up. */
module EngineSessions {
  import opened RebuildControl
  import opened ControlInvariant

  predicate EngineOnly(events: seq<Event>) {
    forall i :: 0 <= i < |events| ==> !events[i].ClientStart?
  }

  /** No capture is latched, and DMA runs only under a running engine. */
  predicate Headed(c: Control) {
    !c.cap.demand && (c.cap.capturing ==> c.resume.engineRunning)
  }

  predicate AlwaysHeaded(c: Control, events: seq<Event>)
    decreases |events|
  {
    Headed(c) && (events != [] ==> AlwaysHeaded(Step(c, events[0]), events[1..]))
  }

  /** Every sleep of the run finds capture already stopped. */
  predicate SleepsIdle(c: Control, events: seq<Event>)
    decreases |events|
  {
    events == [] ||
    ((events[0].Sleep? ==> !c.cap.capturing) && SleepsIdle(Step(c, events[0]), events[1..]))
  }

  /** Every sleep of the run follows the family's stop of the engine. */
  predicate SleepsStopped(c: Control, events: seq<Event>)
    decreases |events|
  {
    events == [] ||
    ((events[0].Sleep? ==> !c.resume.engineRunning) && SleepsStopped(Step(c, events[0]), events[1..]))
  }

  lemma RetryHeaded(c: Control, st: Busy, load: LoadFacts, ipc: StartIpc)
    requires Inv(c) && Headed(c)
    ensures Headed(Retry(c, st, load, ipc))
  {
    if RoundDue(c) {
      var p := CountWaits(c.(retry := c.retry.(divider := 0)), st);
      if Attempts(p, st) {
        var l := LoadDsp(CountTry(p), load);
        assert !l.c.cap.demand;
      }
    }
  }

  lemma EngineStartHeaded(c: Control, ipc: StartIpc)
    requires Inv(c) && Headed(c)
    ensures Headed(PerformEngineStart(c, ipc).c)
  {
  }

  lemma TickHeaded(c: Control, e: Event)
    requires Inv(c) && Headed(c) && e.Tick?
    ensures Headed(Step(c, e))
  {
    var r := Retry(c, e.st, e.load, e.rearm);
    RetryHeaded(c, e.st, e.load, e.rearm);
    RetryKeeps(c, e.st, e.load, e.rearm);
    EngineStartHeaded(r, e.resume);
    assert ResumeReady(r, e.view) && e.view.hasEngine ==>
             Step(c, e).cap == CompleteResume(r, e.view.family, e.resume).c.cap;
  }

  lemma StepHeaded(c: Control, e: Event)
    requires Inv(c) && Headed(c) && !e.ClientStart?
    ensures Headed(Step(c, e)) <==> !(e.Sleep? && c.cap.capturing)
  {
    if e.Tick? {
      TickHeaded(c, e);
    } else if e.EngineStart? {
      EngineStartHeaded(c, e.ipc);
    }
  }

  /** A run whose starts all come from the engine never has headless DMA nor a
      latched session, exactly when no sleep interrupts a live capture. */
  lemma {:induction false} NoHeadlessDma(c: Control, events: seq<Event>)
    requires Inv(c) && Headed(c) && EngineOnly(events)
    ensures AlwaysHeaded(c, events) <==> SleepsIdle(c, events)
    decreases |events|
  {
    if events != [] {
      var e := events[0];
      var s := Step(c, e);
      StepHeaded(c, e);
      StepKeeps(c, e);
      if Headed(s) {
        NoHeadlessDma(s, events[1..]);
      } else {
        assert !AlwaysHeaded(s, events[1..]);
      }
    }
  }

  /** The family stops a running engine before every sleep, so it never happens. */
  lemma {:induction false} StoppedEnginesStayHeaded(c: Control, events: seq<Event>)
    requires Inv(c) && Headed(c) && EngineOnly(events) && SleepsStopped(c, events)
    ensures AlwaysHeaded(c, events)
    decreases |events|
  {
    if events != [] {
      StepHeaded(c, events[0]);
      StepKeeps(c, events[0]);
      StoppedEnginesStayHeaded(Step(c, events[0]), events[1..]);
    }
  }

  // ---------- deferred resumes ----------

  /** The state in which a tick's resume executor finds the latches. */
  function AtResume(c: Control, e: Event): Control
    requires e.Tick?
  {
    Retry(c, e.st, e.load, e.rearm)
  }

  /** The executor acts: the latch is set, the DSP is up, nobody is going to sleep. */
  predicate ReadyTick(c: Control, e: Event) {
    e.Tick? && ResumeReady(AtResume(c, e), e.view) && e.view.hasEngine
  }

  /** The attempt fails: a start that is refused or times out, or a pause only drained. */
  predicate AttemptFails(c: Control, e: Event)
    requires e.Tick?
  {
    !CompleteResume(AtResume(c, e), e.view.family, e.resume).ret.Success?
  }

  /** Somebody asks again: the request is latched anew, with all its tries. */
  predicate Relatches(c: Control, e: Event) {
    || e.EngineResume?
    || (e.Wake? && e.remapped && Rebuilds(c))
    || (ReadyTick(c, e) && AttemptFails(c, e) && !StartsEngine(AtResume(c, e), e.view) && e.view.family.echoes)
  }

  predicate NoRelatch(c: Control, events: seq<Event>)
    decreases |events|
  {
    events == [] || (!Relatches(c, events[0]) && NoRelatch(Step(c, events[0]), events[1..]))
  }

  function ReadyTicks(c: Control, events: seq<Event>): nat
    decreases |events|
  {
    if events == [] then 0
    else (if ReadyTick(c, events[0]) then 1 else 0) + ReadyTicks(Step(c, events[0]), events[1..])
  }

  /** The session is back: its engine runs, by the family's account or by this step's
      start, or nobody holds it any more. */
  predicate Resumes(c: Control, e: Event)
    requires e.Tick?
  {
    || e.view.family.state.Active?
    || e.view.family.clients == 0
    || (Step(c, e).cap.capturing && Step(c, e).resume.engineRunning)
  }

  predicate Failure(c: Control, e: Event) {
    ReadyTick(c, e) && AttemptFails(c, e)
  }

  /** How a resume may end, with its failures counted: the session resumes, or the
      third attempt failed, or recovery is exhausted. Without an engine there is
      nothing to resume. */
  predicate SettledBy(c: Control, e: Event, failures: nat) {
    e.Tick? &&
    (!e.view.hasEngine ||
     (if AttemptFails(c, e) then failures == RESUME_MAX_TRIES || Step(c, e).retry.episodes > MAX_EPISODES
      else Resumes(c, e)))
  }

  /** The run ends the resume, and in one of those ways. */
  predicate Settles(c: Control, events: seq<Event>, failed: nat)
    decreases |events|
  {
    events != [] &&
    (var n := failed + (if Failure(c, events[0]) then 1 else 0);
     if Step(c, events[0]).resume.pending then Settles(Step(c, events[0]), events[1..], n)
     else SettledBy(c, events[0], n))
  }

  /** One call of the executor, on the state it finds. */
  lemma ExecutorOutcome(c: Control, v: EngineView, ipc: StartIpc)
    requires Inv(c) && ResumeReady(c, v) && v.hasEngine
    requires v.family.echoes ==> CompleteResume(c, v.family, ipc).ret.Success? || StartsEngine(c, v)
    ensures var s := RunResume(c, v, ipc);
            if CompleteResume(c, v.family, ipc).ret.Success?
            then !s.resume.pending &&
                 (v.family.state.Active? || v.family.clients == 0 || (s.cap.capturing && s.resume.engineRunning))
            else s.resume.tries == c.resume.tries + 1 &&
                 (!s.resume.pending <==> c.resume.tries + 1 == RESUME_MAX_TRIES || s.retry.episodes > MAX_EPISODES)
  {
    var r := CompleteResume(c, v.family, ipc);
    assert r.c.resume.pending && r.c.resume.tries == c.resume.tries;
  }

  lemma RetryLeavesResume(c: Control, st: Busy, load: LoadFacts, ipc: StartIpc)
    ensures Retry(c, st, load, ipc).resume == c.resume
  {
  }

  lemma ReadyTickOutcome(c: Control, e: Event)
    requires Inv(c) && c.resume.pending && ReadyTick(c, e) && !Relatches(c, e)
    ensures var s := Step(c, e);
            if AttemptFails(c, e)
            then s.resume.tries == c.resume.tries + 1 &&
                 (!s.resume.pending <==> c.resume.tries + 1 == RESUME_MAX_TRIES || s.retry.episodes > MAX_EPISODES)
            else !s.resume.pending && Resumes(c, e)
  {
    JackIsQuiet(c, e);
    RetryKeeps(c, e.st, e.load, e.rearm);
    RetryLeavesResume(c, e.st, e.load, e.rearm);
    ExecutorOutcome(AtResume(c, e), e.view, e.resume);
  }

  lemma OtherStepOutcome(c: Control, e: Event)
    requires Inv(c) && c.resume.pending && !ReadyTick(c, e) && !Relatches(c, e)
    ensures var s := Step(c, e);
            if s.resume.pending then s.resume.tries == c.resume.tries else e.Tick? && !e.view.hasEngine
  {
    if e.Tick? {
      JackIsQuiet(c, e);
    }
  }

  lemma StepSettles(c: Control, e: Event, n: nat)
    requires Inv(c) && c.resume.pending && !Relatches(c, e)
    requires n == c.resume.tries + (if Failure(c, e) then 1 else 0)
    ensures var s := Step(c, e);
            if s.resume.pending then s.resume.tries == n && n < RESUME_MAX_TRIES && (ReadyTick(c, e) ==> Failure(c, e))
            else SettledBy(c, e, n)
  {
    StepKeeps(c, e);
    if ReadyTick(c, e) {
      ReadyTickOutcome(c, e);
    } else {
      OtherStepOutcome(c, e);
    }
  }

  /** A latched resume is settled within the tries it has left, counted in ticks at
      which the DSP is ready: the session resumes, or it is given up after exactly
      three failures or with recovery exhausted. Meanwhile anything may happen but a
      new request. */
  lemma {:induction false} ResumeSettles(c: Control, events: seq<Event>)
    requires Inv(c) && c.resume.pending && NoRelatch(c, events)
    requires ReadyTicks(c, events) >= RESUME_MAX_TRIES - c.resume.tries
    ensures Settles(c, events, c.resume.tries)
    decreases |events|
  {
    var n := c.resume.tries + (if Failure(c, events[0]) then 1 else 0);
    StepSettles(c, events[0], n);
    StepKeeps(c, events[0]);
    if Step(c, events[0]).resume.pending {
      ResumeSettles(Step(c, events[0]), events[1..]);
    }
  }

  /** So a request from the family, whatever went before, is settled within three ready
      ticks, with three attempts of its own. */
  lemma RequestIsSettled(c: Control, events: seq<Event>)
    requires Inv(c)
    requires var s := Step(c, EngineResume); NoRelatch(s, events) && ReadyTicks(s, events) >= 3
    ensures Settles(Step(c, EngineResume), events, 0)
  {
    StepKeeps(c, EngineResume);
    ResumeSettles(Step(c, EngineResume), events);
  }
}
