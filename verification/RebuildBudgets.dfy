/** The rebuild rounds end, and recovery cannot feed itself for ever. */
module RebuildBudgets {
  import opened RebuildControl
  import opened ControlInvariant

  // ---------- one arming ----------

  const ROUNDS_PER_TRY: nat := WAIT_ROUNDS + 1

  function Min(a: nat, b: nat): nat {
    if a < b then a else b
  }

  /** Decoding rounds that can still pass, the ending one included. */
  function Measure(c: Control): nat
    requires c.retry.tries < MAX_TRIES
  {
    ROUNDS_PER_TRY * (MAX_TRIES - 1 - c.retry.tries) + (WAIT_ROUNDS - Min(c.retry.waits, WAIT_ROUNDS)) + 1
  }

  /** A retry round that finds the controller decoding and the output not running. */
  predicate DecodingRound(c: Control, e: Event) {
    e.Tick? && RoundDue(c) && (e.st.Quiet? || e.st.Programmed?)
  }

  /** The round's patience, as it stands when the round decides. */
  function Decided(c: Control, e: Event): Control
    requires e.Tick?
  {
    CountWaits(c.(retry := c.retry.(divider := 0)), e.st)
  }

  predicate CallsInit(c: Control, e: Event) {
    e.Tick? && RoundDue(c) && Attempts(Decided(c, e), e.st)
  }

  /** The arming is over after this step: the firmware came up, or the last try failed. */
  predicate Ends(c: Control, e: Event) {
    CallsInit(c, e) &&
    (LoadDsp(CountTry(Decided(c, e)), e.load).up || c.retry.tries + 1 >= MAX_TRIES)
  }

  predicate HasEnd(c: Control, events: seq<Event>)
    decreases |events|
  {
    events != [] && (Ends(c, events[0]) || HasEnd(Step(c, events[0]), events[1..]))
  }

  function Rounds(c: Control, events: seq<Event>): nat
    decreases |events|
  {
    if events == [] then 0
    else (if DecodingRound(c, events[0]) then 1 else 0) + Rounds(Step(c, events[0]), events[1..])
  }

  predicate NoPowerChange(events: seq<Event>) {
    forall i :: 0 <= i < |events| ==> !events[i].Sleep? && !events[i].Wake?
  }

  lemma RoundShrinks(c: Control, e: Event)
    requires Inv(c) && c.retry.pending && e.Tick? && RoundDue(c) && !Ends(c, e)
    ensures var s := Retry(c, e.st, e.load, e.rearm);
            s.retry.pending && s.retry.tries < MAX_TRIES &&
            Measure(s) + (if DecodingRound(c, e) then 1 else 0) <= Measure(c)
  {
    var p := Decided(c, e);
    if Attempts(p, e.st) {
      var l := LoadDsp(CountTry(p), e.load);
      assert !l.up && GiveUp(l.c) == l.c;
    }
  }

  lemma StepShrinks(c: Control, e: Event)
    requires Inv(c) && c.retry.pending && !e.Sleep? && !e.Wake? && !Ends(c, e)
    ensures var s := Step(c, e);
            s.retry.pending && s.retry.tries < MAX_TRIES &&
            Measure(s) + (if DecodingRound(c, e) then 1 else 0) <= Measure(c)
  {
    if e.Tick? && RoundDue(c) {
      RoundShrinks(c, e);
    }
  }

  /** Whatever clients, the engine and AppleHDA put in between, the arming ends
      with its Measure(c)-th decoding round at the latest. */
  lemma {:induction false} RoundsTerminate(c: Control, events: seq<Event>)
    requires Inv(c) && c.retry.pending && NoPowerChange(events)
    requires Rounds(c, events) >= Measure(c)
    ensures HasEnd(c, events)
    decreases |events|
  {
    if !Ends(c, events[0]) {
      StepShrinks(c, events[0]);
      StepKeeps(c, events[0]);
      RoundsTerminate(Step(c, events[0]), events[1..]);
    }
  }

  lemma MeasureAtMost252(c: Control)
    requires c.retry.tries < MAX_TRIES
    ensures Measure(c) <= 252
  {
  }

  lemma ArmingAllows252Rounds(c: Control, events: seq<Event>)
    requires Inv(c) && c.retry.pending && NoPowerChange(events)
    requires Rounds(c, events) >= 252
    ensures HasEnd(c, events)
  {
    MeasureAtMost252(c);
    RoundsTerminate(c, events);
  }

  /** The slowest round there is: programmed while that costs no try, then clean, and the load fails. */
  function SlowTick(c: Control): Event {
    Tick(if c.retry.waits < WAIT_ROUNDS then Programmed else Quiet, LoadFacts(false, Quiet, false), Answered,
         NO_ENGINE, Answered, JACK_STILL)
  }

  /** The bound is met: a patient arming can pass every smaller number of rounds without ending. */
  lemma {:induction false} SlowestArming(c: Control, k: nat) returns (events: seq<Event>)
    requires Inv(c) && RetryArmed(c) && Patient(c) && c.retry.waits <= WAIT_ROUNDS
    requires k < Measure(c)
    ensures NoPowerChange(events) && Rounds(c, events) == k && !HasEnd(c, events)
    decreases k, TICKS_PER_ROUND - c.retry.divider
  {
    if k == 0 {
      events := [];
    } else {
      var e := SlowTick(c);
      var s := Step(c, e);
      StepKeeps(c, e);
      var rest;
      if RoundDue(c) {
        RoundShrinks(c, e);
        assert s == Retry(c, e.st, e.load, e.rearm);
        assert Measure(s) == Measure(c) - 1;
        rest := SlowestArming(s, k - 1);
      } else {
        rest := SlowestArming(s, k);
      }
      events := [e] + rest;
      assert events[0] == e && events[1..] == rest;
    }
  }

  lemma PatientArmingCanTake251Rounds() returns (c: Control, events: seq<Event>)
    ensures Inv(c) && c.retry == Armed(0, true)
    ensures NoPowerChange(events) && Rounds(c, events) == 251 && !HasEnd(c, events)
  {
    c := Boot(true, true).(retry := Armed(0, true));
    events := SlowestArming(c, 251);
  }

  // ---------- recovery episodes ----------

  /** Loads that can still run before a refill. */
  function Potential(c: Control): nat
    requires c.retry.pending ==> c.retry.tries < MAX_TRIES
  {
    MAX_TRIES * (MAX_EPISODES - Min(c.retry.episodes, MAX_EPISODES)) +
    (if c.retry.pending then MAX_TRIES - c.retry.tries else 0)
  }

  /** A wake that rebuilds, a capture start that succeeds, or a start demanded after giving up. */
  predicate Refills(c: Control, e: Event) {
    || (e.Wake? && e.remapped && Rebuilds(c))
    || (!c.cap.capturing && Step(c, e).cap.capturing)
    || ((e.ClientStart? || e.EngineStart?) && !c.cap.ready && !c.retry.pending && c.setup.mapped)
  }

  /** The recovery hands the DSP to a new set of rounds. */
  predicate Recovers(c: Control, e: Event) {
    var s := Step(c, e);
    s.retry.pending && s.retry.episodes > c.retry.episodes
  }

  predicate NoRefill(c: Control, events: seq<Event>)
    decreases |events|
  {
    events == [] || (!Refills(c, events[0]) && NoRefill(Step(c, events[0]), events[1..]))
  }

  function InitCalls(c: Control, events: seq<Event>): nat
    decreases |events|
  {
    if events == [] then 0
    else (if CallsInit(c, events[0]) then 1 else 0) + InitCalls(Step(c, events[0]), events[1..])
  }

  function Recoveries(c: Control, events: seq<Event>): nat
    decreases |events|
  {
    if events == [] then 0
    else (if Recovers(c, events[0]) then 1 else 0) + Recoveries(Step(c, events[0]), events[1..])
  }

  /** From one state to a later one: loads are paid from the potential, recoveries from the episodes. */
  predicate Paid(c: Control, s: Control, loads: nat)
    requires c.retry.pending ==> c.retry.tries < MAX_TRIES
    requires s.retry.pending ==> s.retry.tries < MAX_TRIES
  {
    && Potential(s) + loads <= Potential(c)
    && c.retry.episodes <= s.retry.episodes
    && (s.retry.pending && s.retry.episodes > c.retry.episodes ==> s.retry.episodes <= MAX_EPISODES)
  }

  lemma RecoveryIsPaid(c: Control)
    requires !c.retry.pending
    ensures Paid(c, ScheduleRecovery(c), 0)
  {
  }

  lemma RearmIsPaid(c: Control, ipc: StartIpc)
    requires !c.retry.pending && c.cap.ready && c.setup.rings && !c.cap.capturing
    ensures var s := Rearm(c, ipc);
            (s.retry.pending ==> s.retry.tries < MAX_TRIES) && (s.cap.capturing || Paid(c, s, 0))
  {
    RecoveryIsPaid(c.(cap := c.cap.(demand := true)));
  }

  lemma EngineStartIsPaid(c: Control, ipc: StartIpc)
    requires !c.retry.pending && c.cap.ready && c.setup.rings
    ensures var s := PerformEngineStart(c, ipc).c;
            (s.retry.pending ==> s.retry.tries < MAX_TRIES) &&
            ((!c.cap.capturing && s.cap.capturing) || Paid(c, s, 0))
  {
    RecoveryIsPaid(c.(cap := c.cap.(demand := true)));
  }

  lemma RoundIsPaid(c: Control, e: Event)
    requires Inv(c) && e.Tick? && RoundDue(c)
    ensures var s := Retry(c, e.st, e.load, e.rearm);
            (s.retry.pending ==> s.retry.tries < MAX_TRIES) &&
            (s.cap.capturing || Paid(c, s, if CallsInit(c, e) then 1 else 0))
  {
    var p := Decided(c, e);
    if Attempts(p, e.st) {
      var l := LoadDsp(CountTry(p), e.load);
      if l.up {
        var x := ClearPending(l.c);
        assert Potential(x) + 1 <= Potential(c);
        RearmIsPaid(x, e.rearm);
      }
    }
  }

  lemma TickIsPaid(c: Control, e: Event)
    requires Inv(c) && e.Tick? && !Refills(c, e)
    requires Inv(Step(c, e))
    ensures Paid(c, Step(c, e), if CallsInit(c, e) then 1 else 0)
  {
    var r := Retry(c, e.st, e.load, e.rearm);
    RetryKeeps(c, e.st, e.load, e.rearm);
    if RoundDue(c) {
      RoundIsPaid(c, e);
    }
    if ResumeReady(r, e.view) {
      EngineStartIsPaid(r, e.resume);
    }
  }

  lemma StepIsPaid(c: Control, e: Event)
    requires Inv(c) && !Refills(c, e)
    ensures Inv(Step(c, e)) && Paid(c, Step(c, e), if CallsInit(c, e) then 1 else 0)
  {
    StepKeeps(c, e);
    if e.Tick? {
      TickIsPaid(c, e);
    }
  }

  /** Between refills the driver runs at most 48 loads and 3 recoveries, even if
      every firmware boots and every capture message times out. */
  lemma {:induction false} NoRecoveryLivelock(c: Control, events: seq<Event>)
    requires Inv(c) && NoRefill(c, events)
    ensures InitCalls(c, events) <= Potential(c) <= 48
    ensures Recoveries(c, events) + Min(c.retry.episodes, MAX_EPISODES) <= MAX_EPISODES
    decreases |events|
  {
    if events != [] {
      StepIsPaid(c, events[0]);
      NoRecoveryLivelock(Step(c, events[0]), events[1..]);
    }
  }

  /** The tick that spends the most: the load fails until the last try, then the
      firmware boots and the session's first message times out. */
  function WastefulTick(c: Control): Event {
    Tick(Quiet, LoadFacts(true, Quiet, c.retry.tries + 1 >= MAX_TRIES), ParamsTimeout,
         NO_ENGINE, Answered, JACK_STILL)
  }

  /** The bound is met from every armed state with a latched session. */
  lemma {:induction false} MostWastefulRun(c: Control) returns (events: seq<Event>)
    requires Inv(c) && RetryArmed(c) && c.cap.demand && c.retry.episodes <= MAX_EPISODES
    ensures NoRefill(c, events) && InitCalls(c, events) == Potential(c)
    decreases Potential(c), TICKS_PER_ROUND - c.retry.divider
  {
    var e := WastefulTick(c);
    var s := Step(c, e);
    var rest := [];
    if !(c.retry.episodes == MAX_EPISODES && c.retry.tries + 1 == MAX_TRIES && RoundDue(c)) {
      StepIsPaid(c, e);
      rest := MostWastefulRun(s);
    }
    events := [e] + rest;
    assert events[0] == e && events[1..] == rest;
  }

  lemma AWakeCanCost48Loads() returns (c: Control, events: seq<Event>)
    ensures Inv(c) && c.retry == Armed(0, false)
    ensures NoRefill(c, events) && InitCalls(c, events) == 48
  {
    var asleep := Boot(true, true).(cap := Session(false, false, false, true),
                                    setup := Setup(true, true, true, false, true));
    c := Step(asleep, Wake(true, false));
    events := MostWastefulRun(c);
  }

  /** What a refused start buys after the rebuild gave up: the whole potential,
      recovery episodes included, and a run can spend all of it. While a rebuild is
      pending, or the device is unmapped, it buys nothing. */
  lemma ADemandBuys48Loads(c: Control, ipc: StartIpc) returns (events: seq<Event>)
    requires Inv(c) && !c.cap.ready
    ensures var s := Step(c, ClientStart(ipc));
            if c.retry.pending || !c.setup.mapped then s.retry == c.retry
            else Potential(s) == 48 && NoRefill(s, events) && InitCalls(s, events) == 48
  {
    var s := Step(c, ClientStart(ipc));
    StepKeeps(c, ClientStart(ipc));
    events := [];
    if !c.retry.pending && c.setup.mapped {
      events := MostWastefulRun(s);
    }
  }
}
