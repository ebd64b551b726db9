/** How soon a rebuild answers when nothing fails. */
module RebuildResponse {
  import opened RebuildControl
  import opened ControlInvariant
  import opened RebuildBudgets
  import opened DemandRuns

  /** Nothing fails: at every tick the controller decodes and its output does not
      run, no load is stopped by it and every load comes up, every message is
      answered. Clients, the engine, AppleHDA, power notices and resume requests come
      as they please; the machine stays awake. */
  predicate Cooperative(events: seq<Event>) {
    forall i :: 0 <= i < |events| ==> Cooperates(events[i])
  }

  predicate Cooperates(e: Event) {
    match e
    case Tick(st, load, rearm, view, resume, _) =>
      (st.Quiet? || st.Programmed?) && load.reachesBorrow && load.boots &&
      (load.atBorrow == st || load.atBorrow.Quiet?) && rearm.Answered? && resume.Answered?
    case ClientStart(ipc) => ipc.Answered?
    case ClientStop(answered) => answered
    case EngineStart(ipc) => ipc.Answered?
    case EngineStop(answered) => answered
    case Sleep => false
    case Wake(_, _) => false
    case _ => true
  }

  /** Every tick finds the output in class `k`. */
  predicate Always(events: seq<Event>, k: Busy) {
    forall i :: 0 <= i < |events| && events[i].Tick? ==> events[i].st == k
  }

  function Ticks(events: seq<Event>): nat
    decreases |events|
  {
    if events == [] then 0 else (if events[0].Tick? then 1 else 0) + Ticks(events[1..])
  }

  /** Ticks until the firmware is up again, if they all find the output in class `k`. */
  function TicksNeeded(c: Control, k: Busy): nat
    requires c.retry.divider < TICKS_PER_ROUND
  {
    var rounds := if k.Programmed? && Patient(c) then WAIT_ROUNDS - Min(c.retry.waits, WAIT_ROUNDS) + 1 else 1;
    TICKS_PER_ROUND * rounds - c.retry.divider
  }

  ghost predicate Served(c: Control, d: bool) {
    c.cap.ready && !c.retry.pending && !c.cap.demand && (c.cap.capturing <==> d)
  }

  ghost predicate InProgress(c: Control, d: bool) {
    RetryArmed(c) && !c.cap.capturing && (c.cap.demand <==> d)
  }

  lemma ServedStep(c: Control, e: Event, d: bool)
    requires Inv(c) && Served(c, d) && Cooperates(e)
    ensures Served(Step(c, e), Outcome(c, e, d))
  {
    if e.Tick? {
      JackIsQuiet(c, e);
    }
  }

  /** The retry part of a tick. Every tick uses up the patience a programmed output
      would ask for, whatever it finds. */
  lemma ProgressRetry(c: Control, e: Event, d: bool)
    requires Inv(c) && InProgress(c, d) && Cooperates(e) && e.Tick?
    ensures var s := Retry(c, e.st, e.load, e.rearm);
            Inv(s) &&
            if TicksNeeded(c, e.st) == 1 then Served(s, d)
            else InProgress(s, d) && (forall k :: k == e.st || k == Programmed ==>
                                        TicksNeeded(s, k) == TicksNeeded(c, k) - 1)
  {
    RetryKeeps(c, e.st, e.load, e.rearm);
  }

  /** The resume executor of a tick: idle while a rebuild goes on, else as asked. */
  lemma ResumeKeepsProgress(c: Control, v: EngineView, ipc: StartIpc, d: bool)
    requires InProgress(c, d)
    ensures RunResume(c, v, ipc) == c && !StartsEngine(c, v)
  {
  }

  lemma ResumeKeepsService(c: Control, v: EngineView, ipc: StartIpc, d: bool)
    requires Inv(c) && Served(c, d) && ipc.Answered?
    ensures Served(RunResume(c, v, ipc), d || StartsEngine(c, v))
  {
  }

  lemma ProgressTick(c: Control, e: Event, d: bool)
    requires Inv(c) && InProgress(c, d) && Cooperates(e) && e.Tick?
    ensures var s := Step(c, e);
            Inv(s) &&
            if TicksNeeded(c, e.st) == 1 then Served(s, Outcome(c, e, d))
            else InProgress(s, Outcome(c, e, d)) && (forall k :: k == e.st || k == Programmed ==>
                                                       TicksNeeded(s, k) == TicksNeeded(c, k) - 1)
  {
    StepKeeps(c, e);
    JackIsQuiet(c, e);
    ProgressRetry(c, e, d);
    var s := Retry(c, e.st, e.load, e.rearm);
    if TicksNeeded(c, e.st) == 1 {
      ResumeKeepsService(s, e.view, e.resume, d);
    } else {
      ResumeKeepsProgress(s, e.view, e.resume, d);
    }
  }

  lemma ProgressOther(c: Control, e: Event, d: bool)
    requires Inv(c) && InProgress(c, d) && Cooperates(e) && !e.Tick?
    ensures var s := Step(c, e);
            Inv(s) && InProgress(s, Outcome(c, e, d)) && (forall k :: TicksNeeded(s, k) == TicksNeeded(c, k))
  {
    StepKeeps(c, e);
  }

  lemma {:induction false} StaysServed(c: Control, events: seq<Event>, d: bool)
    requires Inv(c) && Served(c, d) && Cooperative(events)
    ensures Served(Run(c, events), LastWord(d, c, events))
    decreases |events|
  {
    if events != [] {
      var e := events[0];
      StepKeeps(c, e);
      ServedStep(c, e, d);
      StaysServed(Step(c, e), events[1..], Outcome(c, e, d));
    }
  }

  /** However clean and programmed rounds alternate: after as many ticks as a
      programmed output would take, the firmware is up and the microphone captures if
      and only if the last word was for it. */
  lemma {:induction false} ResponseBound(c: Control, events: seq<Event>, d: bool)
    requires Inv(c) && InProgress(c, d) && Cooperative(events)
    requires Ticks(events) >= TicksNeeded(c, Programmed)
    ensures Served(Run(c, events), LastWord(d, c, events))
    decreases |events|
  {
    var e := events[0];
    var s, d' := Step(c, e), Outcome(c, e, d);
    if e.Tick? {
      ProgressTick(c, e, d);
    } else {
      ProgressOther(c, e, d);
    }
    if e.Tick? && TicksNeeded(c, e.st) == 1 {
      StaysServed(s, events[1..], d');
    } else {
      ResponseBound(s, events[1..], d');
    }
  }

  /** With an output that keeps its class the time is exact: the firmware comes up
      with tick number TicksNeeded and no sooner. */
  lemma {:induction false} ResponseTime(c: Control, events: seq<Event>, k: Busy, d: bool)
    requires Inv(c) && InProgress(c, d) && Cooperative(events) && Always(events, k)
    ensures Run(c, events).cap.ready <==> Ticks(events) >= TicksNeeded(c, k)
    ensures Ticks(events) >= TicksNeeded(c, k) ==> Served(Run(c, events), LastWord(d, c, events))
    decreases |events|
  {
    if events != [] {
      var e := events[0];
      var s, d' := Step(c, e), Outcome(c, e, d);
      if e.Tick? {
        ProgressTick(c, e, d);
      } else {
        ProgressOther(c, e, d);
      }
      if e.Tick? && TicksNeeded(c, k) == 1 {
        StaysServed(s, events[1..], d');
      } else {
        ResponseTime(s, events[1..], k, d');
      }
    }
  }

  /** From a fresh arming: within 3 ticks for an impatient driver, 63 for a patient
      one; exactly 3 and 63 when the output stays clean, or stays programmed. */
  lemma FreshArmingResponds(c: Control, events: seq<Event>)
    requires Inv(c) && RetryArmed(c) && !c.cap.capturing
    requires c.retry == Armed(c.retry.episodes, c.retry.hot) && Cooperative(events)
    ensures Ticks(events) >= (if Patient(c) then 63 else 3) ==>
              Served(Run(c, events), LastWord(c.cap.demand, c, events))
    ensures Always(events, Quiet) ==> (Run(c, events).cap.ready <==> Ticks(events) >= 3)
    ensures Always(events, Programmed) ==>
              (Run(c, events).cap.ready <==> Ticks(events) >= (if Patient(c) then 63 else 3))
  {
    if Ticks(events) >= TicksNeeded(c, Programmed) {
      ResponseBound(c, events, c.cap.demand);
    }
    if Always(events, Quiet) {
      ResponseTime(c, events, Quiet, c.cap.demand);
    }
    if Always(events, Programmed) {
      ResponseTime(c, events, Programmed, c.cap.demand);
    }
  }
}
