/** When the loader may take AppleHDA's output descriptor. */
module BorrowPatience {
  import opened RebuildControl
  import opened ControlInvariant
  import opened RebuildBudgets

  /** Does this step begin a new set of retry rounds? */
  predicate Arms(c: Control, e: Event) {
    Step(c, e).retry.pending &&
    (!c.retry.pending ||
     (e.Wake? && e.remapped && Rebuilds(c)) ||
     (CallsInit(c, e) && LoadDsp(CountTry(Decided(c, e)), e.load).up))
  }

  /** Rounds that found the output programmed, counted from the last clean one. */
  function CountRound(n: nat, st: Busy): nat {
    if st.Programmed? then n + 1 else if st.Quiet? then 0 else n
  }

  /** The same along a run, counted from the last arming too. Nothing here looks
      at the driver's own patience counter. */
  function ProgrammedRounds(n: nat, c: Control, events: seq<Event>): nat
    decreases |events|
  {
    if events == [] then n
    else
      var e := events[0];
      var m := if Arms(c, e) then 0
               else if e.Tick? && RoundDue(c) then CountRound(n, e.st)
               else n;
      ProgrammedRounds(m, Step(c, e), events[1..])
  }

  /** The step takes the snapshot that starts a borrow. */
  predicate Borrows(c: Control, e: Event) {
    CallsInit(c, e) && e.load.reachesBorrow && !Bails(CountTry(Decided(c, e)), e.load.atBorrow)
  }

  ghost predicate Counted(c: Control, n: nat) {
    c.retry.pending && Patient(c) ==> c.retry.waits == n
  }

  lemma RoundCounts(c: Control, e: Event, n: nat)
    requires Inv(c) && Counted(c, n) && e.Tick? && RoundDue(c)
    ensures Counted(Retry(c, e.st, e.load, e.rearm), if Arms(c, e) then 0 else CountRound(n, e.st))
  {
    var p := Decided(c, e);
    if Attempts(p, e.st) {
      var l := LoadDsp(CountTry(p), e.load);
    }
  }

  /** A resumed engine can schedule a recovery, and that begins with full patience. */
  lemma ResumeCounts(c: Control, v: EngineView, ipc: StartIpc)
    ensures var s := RunResume(c, v, ipc);
            s.retry == c.retry.(episodes := s.retry.episodes) ||
            (!c.retry.pending && s.retry.pending && s.retry.waits == 0)
  {
  }

  lemma StepCounts(c: Control, e: Event, n: nat)
    requires Inv(c) && Counted(c, n)
    ensures Counted(Step(c, e), if Arms(c, e) then 0
                                else if e.Tick? && RoundDue(c) then CountRound(n, e.st) else n)
  {
    if e.Tick? {
      var r := Retry(c, e.st, e.load, e.rearm);
      if RoundDue(c) {
        RoundCounts(c, e, n);
      }
      ResumeCounts(r, e.view, e.resume);
    }
  }

  lemma {:induction false} RunCounts(c: Control, events: seq<Event>, n: nat)
    requires Inv(c) && Counted(c, n)
    ensures Counted(Run(c, events), ProgrammedRounds(n, c, events))
    decreases |events|
  {
    if events != [] {
      var e := events[0];
      StepCounts(c, e, n);
      StepKeeps(c, e);
      var m := if Arms(c, e) then 0 else if e.Tick? && RoundDue(c) then CountRound(n, e.st) else n;
      RunCounts(Step(c, e), events[1..], m);
    }
  }

  // ---------- when the driver is patient ----------

  /** The arming in force is hot if it came from a recovery, from a start demanded
      while nothing was pending, or from a load put off at first; a wake's is cold.
      Read from the steps: nothing here looks at the driver's own latch. */
  function HotArming(hot: bool, c: Control, events: seq<Event>): bool
    decreases |events|
  {
    if events == [] then hot
    else
      var e := events[0];
      HotArming(if e.Wake? && e.remapped && Rebuilds(c) then false else hot || Arms(c, e), Step(c, e), events[1..])
  }

  lemma ResumeHeats(c: Control, v: EngineView, ipc: StartIpc)
    ensures var s := RunResume(c, v, ipc);
            s.retry.hot == (c.retry.hot || (!c.retry.pending && s.retry.pending)) &&
            (c.retry.pending ==> s.retry.pending)
  {
  }

  lemma RoundHeats(c: Control, e: Event)
    requires Inv(c) && e.Tick? && RoundDue(c)
    ensures var s := Retry(c, e.st, e.load, e.rearm);
            var up := CallsInit(c, e) && LoadDsp(CountTry(Decided(c, e)), e.load).up;
            s.retry.hot == (c.retry.hot || (up && s.retry.pending)) && (!up && !c.retry.pending ==> !s.retry.pending)
  {
    var p := Decided(c, e);
    if Attempts(p, e.st) {
      var l := LoadDsp(CountTry(p), e.load);
      assert l.c.retry.hot == c.retry.hot;
    }
  }

  lemma StepHeats(c: Control, e: Event)
    requires Inv(c)
    ensures Step(c, e).retry.hot ==
            if e.Wake? && e.remapped && Rebuilds(c) then false else c.retry.hot || Arms(c, e)
  {
    if e.Tick? {
      JackIsQuiet(c, e);
      var s := Retry(c, e.st, e.load, e.rearm);
      if RoundDue(c) {
        RoundHeats(c, e);
      }
      ResumeHeats(s, e.view, e.resume);
    }
  }

  lemma {:induction false} RunHeats(c: Control, events: seq<Event>)
    requires Inv(c)
    ensures Run(c, events).retry.hot == HotArming(c.retry.hot, c, events)
    ensures Run(c, events).setup.strict == c.setup.strict
    decreases |events|
  {
    if events != [] {
      StepHeats(c, events[0]);
      StepKeepsPolicy(c, events[0]);
      StepKeeps(c, events[0]);
      RunHeats(Step(c, events[0]), events[1..]);
    }
  }

  /** Does the policy ask for patience after these events? `strict` is the setting. */
  predicate AsksPatience(strict: bool, st: Busy, first: Control, events: seq<Event>) {
    strict || HotArming(Defers(strict, st), first, events)
  }

  /** In every run since the driver was loaded the driver is patient if and only if
      borrowing is strict or the arming in force is hot. */
  lemma PatienceFollowsArmings(strict: bool, rings: bool, st: Busy, load: LoadFacts, events: seq<Event>)
    requires Start(strict, rings, st, load).Some?
    ensures var first := Start(strict, rings, st, load).value;
            Patient(Run(first, events)) <==> AsksPatience(strict, st, first, events)
  {
    var first := Start(strict, rings, st, load).value;
    StartEstablishes(strict, rings, st, load);
    RunHeats(first, events);
  }

  /** In every run since the driver was loaded: a running stream is never borrowed,
      and a programmed one, where the policy asks for patience, only after more than 20
      programmed rounds in a row, this one included. */
  lemma PatientBorrowing(strict: bool, rings: bool, st: Busy, load: LoadFacts, events: seq<Event>, e: Event)
    requires Start(strict, rings, st, load).Some?
    requires var first := Start(strict, rings, st, load).value; Borrows(Run(first, events), e)
    ensures !e.load.atBorrow.Running? && !e.st.Running?
    ensures var first := Start(strict, rings, st, load).value;
            AsksPatience(strict, st, first, events) && (e.load.atBorrow.Programmed? || e.st.Programmed?) ==>
              CountRound(ProgrammedRounds(0, first, events), e.st) > 20
  {
    var first := Start(strict, rings, st, load).value;
    StartEstablishes(strict, rings, st, load);
    RunKeeps(first, events);
    RunCounts(first, events, 0);
    PatienceFollowsArmings(strict, rings, st, load, events);
  }

  /** A start or a stop whose message times out hands the DSP to patient rounds, three
      times at most between refills, and is counted as one too many after that; the
      start keeps its session latched, the stop leaves none. */
  lemma TimeoutsRecover(c: Control, ipc: StartIpc)
    requires Inv(c) && c.cap.ready && !c.cap.capturing && !ipc.Answered?
    ensures var s := Step(c, ClientStart(ipc));
            s.cap.demand && !s.cap.capturing &&
            if c.retry.episodes < 3 then RetryArmed(s) && Patient(s) && s.retry.tries == s.retry.waits == 0
            else s.cap.ready && !s.retry.pending && s.retry.episodes > 3
  {
  }

  lemma UnansweredStopRecovers(c: Control)
    requires Inv(c) && c.cap.capturing
    ensures var s := Step(c, ClientStop(false));
            !s.cap.demand && !s.cap.capturing &&
            if c.retry.episodes < 3 then RetryArmed(s) && Patient(s) && s.retry.tries == s.retry.waits == 0
            else s.cap.ready && !s.retry.pending && s.retry.episodes > 3
  {
  }

  /** A capture start that succeeds makes three recoveries possible again. */
  lemma SuccessRefills(c: Control)
    requires Inv(c) && c.cap.ready && !c.cap.capturing
    ensures var s := Step(c, ClientStart(Answered)); s.cap.capturing && Potential(s) == 36
  {
  }

  /** The load path itself never borrows a busy output either, whatever becomes of
      the load, unless the output is programmed and strict borrowing is switched off. */
  lemma PatientLoading(strict: bool, rings: bool, st: Busy, load: LoadFacts)
    requires !Defers(strict, st) && load.reachesBorrow && !Bails(Boot(strict, rings), load.atBorrow)
    ensures !st.Running? && !load.atBorrow.Running?
    ensures st.Programmed? || load.atBorrow.Programmed? ==> !strict
  {
  }

  /** A bail at the borrow leaves the rounds armed, but the try is spent. */
  lemma BailSpendsATry(c: Control, e: Event)
    requires Inv(c) && CallsInit(c, e) && e.load.reachesBorrow
    requires Bails(CountTry(Decided(c, e)), e.load.atBorrow)
    ensures var s := Retry(c, e.st, e.load, e.rearm);
            !s.cap.ready && (s.retry.pending <==> c.retry.tries + 1 < MAX_TRIES) &&
            s.retry.tries == c.retry.tries + 1
  {
  }
}
