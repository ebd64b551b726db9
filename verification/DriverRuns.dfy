/** From the loading of the driver on: its footprint, its snapshots, its response. */
module DriverRuns {
  import opened RebuildControl
  import opened ControlInvariant
  import opened Registers
  import opened Loader
  import opened LoadBesideCapture
  import opened SharedRuns
  import opened FootprintRuns
  import C = Capture
  import BP = BorrowPatience
  import D = DemandRuns
  import RR = RebuildResponse
  import PC = PowerCycles
  import ES = EngineSessions

  /** From a controller whose capture stream is off, every run of the driver whose
      capture starts and stops are sound keeps the latches and the registers in step. */
  lemma DriverAgrees(
    strict: bool, rings: bool, m: Cells, b: Board, decodes: bool, o: LoadInput, w: World, events: seq<HwEvent>)
    requires StartWorld(strict, rings, m, b, decodes, o) == Some(w)
    requires C.Off(m) && PoliteLoad(o) && PoliteRun(events) && LandsRun(w, b, events)
    requires OutputNearCapture(b) ==>
               KeepsRun(w, b, events) && (FirstBorrow(strict, rings, m, b, decodes, o) ==> KeepsCapture(b, o))
    ensures WorldInv(RunWorld(w, b, events))
  {
    StartEstablishes(strict, rings, OutputBusy(m, b, decodes), Facts(m, b, o));
    if !OutputNearCapture(b) {
      OtherBoardsKeepCapture(b, o);
    }
    if !Defers(strict, OutputBusy(m, b, decodes)) {
      AttemptAgrees(Boot(strict, rings), m, b, o);
    }
    FootprintAgrees(w, b, events);
  }

  // ---------- snapshots ----------

  predicate ProgrammedIn(s: Snapshot) {
    s.cbl != {} || s.bdpl != {} || s.bdpu != {}
  }

  /** The snapshot a load takes after `Prepare`, with what it found of the board. */
  function SnapshotOf(m: Cells, b: Board, o: LoadInput): Snapshot {
    TakeSnapshot(Seen(Prepare(m, o), o), Found(b, o))
  }

  /** When the look before the borrow backs off, in terms of the registers. A
      controller that has stopped decoding by then is borrowed from all the same. */
  lemma BailsOnRegisters(c: Control, m: Cells, b: Board, o: LoadInput)
    ensures var s := TakeSnapshot(Prepare(m, o), b);
            Bails(c, Facts(m, b, o).atBorrow) <==>
            o.stillDecodes && (RUN in s.ctl0 || (Patient(c) && c.retry.waits <= WAIT_ROUNDS && ProgrammedIn(s)))
  {
  }

  /** The tick's round takes the snapshot that starts a borrow. */
  predicate StepBorrows(v: World, b: Board, e: HwEvent) {
    e.HwTick? && StepLoads(v, b, e) && ReachesBorrow(e.load) && !StepBails(v, b, e)
  }

  /** In every run of the driver, on the snapshot itself: it never holds a running
      stream, and where the policy asks for patience it holds a programmed one only
      after more than 20 programmed rounds in a row; unless it holds the noise of a controller
      that has stopped decoding, or a stream taken for the output because the
      controller did not decode when the load read its index. */
  lemma PatientSnapshots(
    strict: bool, rings: bool, m: Cells, b: Board, decodes: bool, o: LoadInput, first: World,
    events: seq<HwEvent>, v: World, e: HwEvent)
    requires StartWorld(strict, rings, m, b, decodes, o) == Some(first) && v == RunWorld(first, b, events)
    requires StepBorrows(v, b, e)
    ensures var s := SnapshotOf(v.m, b, e.load);
            if !e.load.stillDecodes then s == TakeSnapshot(e.load.noise, Found(b, e.load))
            else
              RightStream(b, e.load) ==>
                RUN !in s.ctl0 &&
                (BP.AsksPatience(strict, OutputBusy(m, b, decodes), first.c, Trace(first, b, events)) &&
                 ProgrammedIn(s) ==>
                  BP.CountRound(BP.ProgrammedRounds(0, first.c, Trace(first, b, events)),
                                OutputBusy(v.m, b, e.decodes)) > 20)
  {
    TraceIsRun(first, b, events);
    assert BP.Borrows(v.c, Observe(v, b, e));
    BP.PatientBorrowing(strict, rings, OutputBusy(m, b, decodes), Facts(m, b, o),
                        Trace(first, b, events), Observe(v, b, e));
  }

  /** And of the load path, whatever becomes of that load. */
  lemma PatientFirstSnapshot(strict: bool, rings: bool, m: Cells, b: Board, decodes: bool, o: LoadInput)
    requires FirstBorrow(strict, rings, m, b, decodes, o)
    ensures var s := SnapshotOf(m, b, o);
            if !o.stillDecodes then s == TakeSnapshot(o.noise, Found(b, o))
            else RightStream(b, o) ==> RUN !in s.ctl0 && (ProgrammedIn(s) ==> !strict)
  {
    BP.PatientLoading(strict, rings, OutputBusy(m, b, decodes), Facts(m, b, o));
  }

  // ---------- how soon ----------

  /** Through AppleHDA's own steps, however the classes of its output alternate: when
      nothing fails, the capture stream runs again, if it is wanted, after as many
      ticks as a programmed output would take. */
  lemma CaptureComesBack(w: World, b: Board, events: seq<HwEvent>, d: bool)
    requires WorldInv(w) && RR.InProgress(w.c, d) && PoliteRun(events) && LandsRun(w, b, events)
    requires OutputNearCapture(b) ==> KeepsRun(w, b, events)
    requires RR.Cooperative(Trace(w, b, events))
    requires RR.Ticks(Trace(w, b, events)) >= RR.TicksNeeded(w.c, Programmed)
    ensures var v := RunWorld(w, b, events);
            var wanted := D.LastWord(d, w.c, Trace(w, b, events));
            RR.Served(v.c, wanted) && (C.StreamRuns(v.m) <==> wanted)
  {
    TraceIsRun(w, b, events);
    RR.ResponseBound(w.c, Trace(w, b, events), d);
    FootprintAgrees(w, b, events);
  }

  /** The world after a sleep and a wake that maps the device. */
  function AfterSleep(w: World, b: Board, afterD3: Cells, held: bool): World {
    StepWorld(StepWorld(w, b, HwSleep(afterD3)), b, HwWake(true, held))
  }

  /** And after every sleep: the session held before it, or asked for since the wake,
      has the microphone on the registers within 3 ticks, or 63 if borrowing is strict. */
  lemma SleepIsServedOnRegisters(
    w: World, b: Board, afterD3: Cells, held: bool, s: World, events: seq<HwEvent>)
    requires WorldInv(w) && PoliteEvent(HwSleep(afterD3)) && s == AfterSleep(w, b, afterD3, held)
    requires PoliteRun(events) && LandsRun(s, b, events) && (OutputNearCapture(b) ==> KeepsRun(s, b, events))
    requires RR.Cooperative(Trace(s, b, events))
    requires RR.Ticks(Trace(s, b, events)) >= (if w.c.setup.strict then 63 else 3)
    ensures var v := RunWorld(s, b, events);
            var wanted := D.LastWord(D.Held(w.c), s.c, Trace(s, b, events));
            RR.Served(v.c, wanted) && (C.StreamRuns(v.m) <==> wanted)
  {
    var t := StepWorld(w, b, HwSleep(afterD3));
    StepKeeps(w.c, Sleep);
    StepKeeps(t.c, Wake(true, held));
    PC.SleepParks(w.c);
    PC.WakeAfterSleepArms(w.c, held);
    assert WorldInv(s);
    TraceIsRun(s, b, events);
    PC.SleepIsServed(w.c, held, Trace(s, b, events));
    FootprintAgrees(s, b, events);
  }

  /** A sleep whose wake cannot map the device leaves nothing armed and forgets nobody;
      the next wake that can brings the session back to the rounds. */
  lemma RemapIsRepairedOnRegisters(w: World, b: Board, afterD3: Cells, held: bool, again: bool)
    requires Inv(w.c)
    ensures var f := StepWorld(StepWorld(w, b, HwSleep(afterD3)), b, HwWake(false, held));
            var s := StepWorld(f, b, HwWake(true, again));
            !RetryArmed(f.c) && !f.c.setup.mapped && f.m == afterD3 &&
            RetryArmed(s.c) && !s.c.cap.capturing && (s.c.cap.demand <==> D.Held(w.c)) &&
            (s.c.resume.pending <==> w.c.resume.pending || again)
  {
    PC.FailedRemapIsRepaired(w.c, held, again);
  }

  // ---------- the engine's resumes ----------

  /** From the sleep notice to the wake or its abort no tick resumes the engine: what it
      does to the registers is its retry round's doing. */
  lemma NoResumeIntoSleepOnRegisters(w: World, b: Board, events: seq<HwEvent>, e: HwEvent)
    requires Inv(w.c) && e.HwTick?
    requires forall i :: 0 <= i < |events| ==> !events[i].HwWake? && !events[i].HwWakeNotice?
    ensures var v := RunWorld(StepWorld(w, b, HwWillSleep), b, events);
            StepRegs(v, b, e) == RetryRegs(v.c, v.m, b, e.decodes, e.load, e.rearm)
  {
    var s := StepWorld(w, b, HwWillSleep);
    var v := RunWorld(s, b, events);
    StepKeeps(w.c, WillSleep);
    StaysParked(s, b, events);
    var o := Observe(v, b, e);
    JackIsQuiet(v.c, o);
    RetryKeepsFlags(v.c, o.st, o.load, o.rearm);
  }

  lemma {:induction false} StaysParked(w: World, b: Board, events: seq<HwEvent>)
    requires Inv(w.c) && w.c.resume.sleepImminent
    requires forall i :: 0 <= i < |events| ==> !events[i].HwWake? && !events[i].HwWakeNotice?
    ensures var v := RunWorld(w, b, events); Inv(v.c) && v.c.resume.sleepImminent
    decreases |events|
  {
    if events != [] {
      StepKeeps(w.c, Observe(w, b, events[0]));
      PC.StepKeepsFlags(w.c, Observe(w, b, events[0]));
      StaysParked(StepWorld(w, b, events[0]), b, events[1..]);
    }
  }

  /** Either notice lifts it: the wake's own and that of a sleep that never came. */
  lemma NoticesLiftTheGuard(w: World, b: Board, remapped: bool, held: bool)
    ensures !StepWorld(w, b, HwWakeNotice).c.resume.sleepImminent
    ensures !StepWorld(w, b, HwWake(remapped, held)).c.resume.sleepImminent
  {
  }

  /** A resume the family asks for is settled within three ready ticks of the run. */
  lemma RequestIsSettledOnRegisters(w: World, b: Board, events: seq<HwEvent>)
    requires Inv(w.c)
    requires var s := StepWorld(w, b, HwEngineResume);
             ES.NoRelatch(s.c, Trace(s, b, events)) && ES.ReadyTicks(s.c, Trace(s, b, events)) >= 3
    ensures var s := StepWorld(w, b, HwEngineResume); ES.Settles(s.c, Trace(s, b, events), 0)
  {
    ES.RequestIsSettled(w.c, Trace(StepWorld(w, b, HwEngineResume), b, events));
  }

  // ---------- requests ----------

  /** A playback request is refused: nothing changes, neither latches nor registers. */
  lemma PlaybackIsRefused(w: World, b: Board)
    ensures StepWorld(w, b, HwPlaybackRequest) == w
  {
  }

  /** A stop whose messages time out halts the stream all the same and hands the DSP to
      patient rounds, whoever asked for it. */
  lemma UnansweredStopOnRegisters(w: World, b: Board, s: C.StopInput, e: HwEvent)
    requires WorldInv(w) && w.c.cap.capturing && w.c.retry.episodes < 3
    requires !s.answered && C.AllPolite(s.wait) && C.SoundStop(w.caps, s)
    requires e == HwClientStop(s) || e == HwEngineStop(s)
    ensures var v := StepWorld(w, b, e);
            C.Off(v.m) && !v.c.cap.capturing && !v.c.cap.demand && RetryArmed(v.c) && Patient(v.c)
  {
    C.StopIsExact(w.m, w.caps, s);
  }

  /** The engine's start on an idle DSP that is up: running and capturing if its messages
      are answered, and no session left behind if they are not. */
  lemma EngineStartOnRegisters(w: World, b: Board, k: C.CaptureInput)
    requires WorldInv(w) && w.c.cap.ready && !w.c.cap.capturing && !w.c.resume.engineRunning
    requires PoliteStart(k) && C.SoundStart(w.caps, k)
    ensures var v := StepWorld(w, b, HwEngineStart(k));
            if k.ipc.Answered? then v.c.resume.engineRunning && v.c.cap.capturing && C.On(v.m, w.caps)
            else !v.c.resume.engineRunning && !D.Held(v.c) && C.Off(v.m)
  {
    C.StartIsExact(w.m, w.caps, k);
  }
}
