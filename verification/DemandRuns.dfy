/** Who wants the microphone: no held session is lost, no stopped one comes back. */
module DemandRuns {
  import opened RebuildControl
  import opened ControlInvariant

  /** Was the last request of the user client a start? `d` is the answer before `events`. */
  function LastRequest(d: bool, events: seq<Event>): bool
    decreases |events|
  {
    if events == [] then d
    else LastRequest(if events[0].ClientStart? then true else d && !events[0].ClientStop?, events[1..])
  }

  /** The kernel audio engine takes no part: it is never started, stopped or held by a client. */
  predicate UserClientOnly(events: seq<Event>) {
    forall i :: 0 <= i < |events| ==>
      !events[i].EngineStart? && !events[i].EngineStop? &&
      (events[i].Tick? ==> events[i].view.family.clients == 0)
  }

  predicate Held(c: Control) {
    c.cap.capturing || c.cap.demand
  }

  lemma RoundHolds(c: Control, st: Busy, load: LoadFacts, ipc: StartIpc)
    requires Inv(c) && RetryArmed(c)
    ensures Held(Round(c, st, load, ipc)) == Held(c)
  {
    var p := CountWaits(c, st);
    if Attempts(p, st) {
      var l := LoadDsp(CountTry(p), load);
      assert Held(l.c) == Held(c);
    }
  }

  // ---------- what takes and what drops a session ----------

  /** Does the step start the engine, directly or through a deferred resume? */
  predicate Launches(c: Control, e: Event) {
    e.EngineStart? || (e.Tick? && StartsEngine(Retry(c, e.st, e.load, e.rearm), e.view))
  }

  /** Does that start fail? A start under a running capture cannot. */
  predicate LaunchFails(c: Control, e: Event)
    requires e.EngineStart? || e.Tick?
  {
    var at := if e.Tick? then Retry(c, e.st, e.load, e.rearm) else c;
    var ipc := if e.Tick? then e.resume else e.ipc;
    !at.cap.capturing && (!at.cap.ready || !ipc.Answered?)
  }

  /** The step takes the microphone: a client's start, or an engine start that succeeds. */
  predicate Takes(c: Control, e: Event) {
    e.ClientStart? || (Launches(c, e) && !LaunchFails(c, e))
  }

  /** The step drops the session, whoever asked for it: a stop, the client's or the
      engine's, or an engine start that fails. */
  predicate Drops(c: Control, e: Event) {
    e.ClientStop? || e.EngineStop? || (Launches(c, e) && LaunchFails(c, e))
  }

  function Outcome(c: Control, e: Event, d: bool): bool {
    if Takes(c, e) then true else d && !Drops(c, e)
  }

  lemma RetryHolds(c: Control, st: Busy, load: LoadFacts, ipc: StartIpc)
    requires Inv(c)
    ensures Held(Retry(c, st, load, ipc)) == Held(c)
  {
    if RoundDue(c) {
      RoundHolds(c.(retry := c.retry.(divider := 0)), st, load, ipc);
    }
  }

  /** No other step touches the session, through any load, timeout, sleep or wake. */
  lemma StepHolds(c: Control, e: Event)
    requires Inv(c)
    ensures Held(Step(c, e)) <==> Outcome(c, e, Held(c))
  {
    if e.Tick? {
      JackIsQuiet(c, e);
      RetryHolds(c, e.st, e.load, e.rearm);
      RetryKeeps(c, e.st, e.load, e.rearm);
    }
  }

  /** A held session ends with a step exactly when the step is one of those. */
  lemma StepDropsDemand(c: Control, e: Event)
    requires Inv(c) && Held(c)
    ensures !Held(Step(c, e)) <==> Drops(c, e)
  {
    StepHolds(c, e);
  }

  /** Who had the last word: a step that takes the microphone or one that drops it? */
  function LastWord(d: bool, c: Control, events: seq<Event>): bool
    decreases |events|
  {
    if events == [] then d else LastWord(Outcome(c, events[0], d), Step(c, events[0]), events[1..])
  }

  /** The law for any mix of clients and engine, over every run: somebody has the
      microphone, capturing or latched, if and only if the last word was for it. */
  lemma {:induction false} MicrophoneFollowsTheLastWord(c: Control, events: seq<Event>)
    requires Inv(c)
    ensures Held(Run(c, events)) <==> LastWord(Held(c), c, events)
    decreases |events|
  {
    if events != [] {
      StepHolds(c, events[0]);
      StepKeeps(c, events[0]);
      MicrophoneFollowsTheLastWord(Step(c, events[0]), events[1..]);
    }
  }

  predicate Undropped(c: Control, events: seq<Event>)
    decreases |events|
  {
    events == [] || (!Drops(c, events[0]) && Undropped(Step(c, events[0]), events[1..]))
  }

  predicate Untaken(c: Control, events: seq<Event>)
    decreases |events|
  {
    events == [] || (!Takes(c, events[0]) && Untaken(Step(c, events[0]), events[1..]))
  }

  lemma {:induction false} UntakenStaysLost(d: bool, c: Control, events: seq<Event>)
    requires Untaken(c, events)
    ensures LastWord(d, c, events) <==> d && Undropped(c, events)
    decreases |events|
  {
    if events != [] {
      UntakenStaysLost(Outcome(c, events[0], d), Step(c, events[0]), events[1..]);
    }
  }

  lemma {:induction false} UndroppedStays(c: Control, events: seq<Event>)
    requires Undropped(c, events)
    ensures LastWord(true, c, events)
    decreases |events|
  {
    if events != [] {
      UndroppedStays(Step(c, events[0]), events[1..]);
    }
  }

  /** After a client's last start: its session is held at the end if no later step
      drops it, and, unless somebody took the microphone again, only then. */
  lemma ClientSessionIsKept(c: Control, ipc: StartIpc, events: seq<Event>)
    requires Inv(c)
    ensures var s := Step(c, ClientStart(ipc));
            (Undropped(s, events) ==> Held(Run(s, events))) &&
            (Untaken(s, events) ==> (Held(Run(s, events)) <==> Undropped(s, events)))
  {
    var s := Step(c, ClientStart(ipc));
    StepHolds(c, ClientStart(ipc));
    StepKeeps(c, ClientStart(ipc));
    MicrophoneFollowsTheLastWord(s, events);
    if Undropped(s, events) {
      UndroppedStays(s, events);
    }
    if Untaken(s, events) {
      UntakenStaysLost(true, s, events);
    }
  }

  // ---------- user clients alone, and shared runs ----------

  /** At every step boundary of a run: somebody wants the microphone if and only
      if it is capturing or its demand is latched. */
  lemma {:induction false} DemandIsConserved(c: Control, events: seq<Event>, d: bool)
    requires Inv(c) && UserClientOnly(events)
    requires Held(c) <==> d
    ensures Held(Run(c, events)) <==> LastRequest(d, events)
    decreases |events|
  {
    if events != [] {
      var e := events[0];
      StepKeeps(c, e);
      StepHolds(c, e);
      var d' := if e.ClientStart? then true else d && !e.ClientStop?;
      DemandIsConserved(Step(c, e), events[1..], d');
    }
  }

  /** An engine start drops a client's session exactly when the session is only
      latched and the start fails. */
  lemma EngineStartDropsDemand(c: Control, ipc: StartIpc)
    requires Inv(c) && Held(c)
    ensures !Held(PerformEngineStart(c, ipc).c) <==>
            !c.cap.capturing && (!c.cap.ready || !ipc.Answered?)
  {
  }

  /** Such a run: a client's start is refused while the DSP is down, then the engine's is. */
  lemma SharedRunDropsDemand()
    ensures var c := Boot(true, true).(retry := Armed(0, true));
            var events := [ClientStart(Answered), EngineStart(Answered)];
            Inv(c) && !Held(c) && LastRequest(false, events) && !Held(Run(c, events))
  {
    var c := Boot(true, true).(retry := Armed(0, true));
    var events := [ClientStart(Answered), EngineStart(Answered)];
    assert events[1..] == [EngineStart(Answered)];
    assert events[1..][1..] == [];
    var c1 := Step(c, events[0]);
    assert Run(c, events) == Run(c1, events[1..]);
    assert Run(c1, events[1..]) == Run(Step(c1, events[1]), []);
  }

  /** Another: client and engine share a running capture, and the engine's stop ends it for both. */
  lemma EngineStopDropsDemand()
    ensures var c := Boot(true, true).(cap := Session(true, false, false, false));
            var events := [ClientStart(Answered), EngineStart(Answered), EngineStop(true)];
            Inv(c) && LastRequest(false, events) && !Held(Run(c, events))
  {
    var c := Boot(true, true).(cap := Session(true, false, false, false));
    var events := [ClientStart(Answered), EngineStart(Answered), EngineStop(true)];
    assert events[1..] == [EngineStart(Answered), EngineStop(true)];
    assert events[1..][1..] == [EngineStop(true)];
    assert events[1..][1..][1..] == [];
    var c1 := Step(c, events[0]);
    var c2 := Step(c1, events[1]);
    assert Run(c, events) == Run(c1, events[1..]);
    assert Run(c1, events[1..]) == Run(c2, events[1..][1..]);
    assert Run(c2, events[1..][1..]) == Run(Step(c2, events[2]), []);
  }
}
