/**
 The latch machine and the registers together, AppleHDA writing in between. The
 classes and outcomes that the latch machine takes as inputs are read off the
 registers here, so its theorems hold of these runs too.
 */
module SharedRuns {
  import opened RebuildControl
  import opened ControlInvariant
  import opened Registers
  import opened Loader
  import C = Capture

  /** Latches, registers, and what the last successful load found of the board. */
  datatype World = World(c: Control, m: Cells, caps: Board)

  /** What the driver knows of the board before its first successful load. */
  const UNKNOWN: Board := Board(0, false, false)

  datatype HwEvent =
    | HwTick(decodes: bool, load: LoadInput, rearm: C.CaptureInput, view: EngineView, resume: C.CaptureInput,
             jack: Jack)
    | HwClientStart(k: C.CaptureInput)
    | HwClientStop(s: C.StopInput)
    | HwEngineStart(k: C.CaptureInput)
    | HwEngineStop(s: C.StopInput)
    | HwEngineResume
    | HwWillSleep
    | HwWakeNotice
    | HwSleep(afterD3: Cells)
    | HwWake(remapped: bool, heldSession: bool)
    | HwPlaybackRequest
    | HwApple(ws: seq<AppleWrite>)

  /** The event of the latch machine that a step amounts to. */
  function Observe(w: World, b: Board, e: HwEvent): Event {
    match e
    case HwTick(decodes, load, rearm, view, resume, jack) =>
      Tick(OutputBusy(w.m, b, decodes), Facts(w.m, b, load), rearm.ipc, view, resume.ipc, jack)
    case HwClientStart(k) => ClientStart(k.ipc)
    case HwClientStop(s) => ClientStop(s.answered)
    case HwEngineStart(k) => EngineStart(k.ipc)
    case HwEngineStop(s) => EngineStop(s.answered)
    case HwEngineResume => EngineResume
    case HwWillSleep => WillSleep
    case HwWakeNotice => WakeNotice
    case HwSleep(_) => Sleep
    case HwWake(remapped, heldSession) => Wake(remapped, heldSession)
    case HwPlaybackRequest => PlaybackRequest
    case HwApple(_) => Foreign
  }

  // ---------- the register side of each handler ----------

  /** Does a start get past its refusals, to the registers? */
  predicate Serves(c: Control) {
    c.cap.ready && c.setup.rings && !c.cap.capturing
  }

  function StartRegs(c: Control, m: Cells, b: Board, k: C.CaptureInput): Cells {
    if Serves(c) then C.CaptureOn(m, b, k) else m
  }

  function StopRegs(c: Control, m: Cells, b: Board, s: C.StopInput): Cells {
    if c.cap.capturing then C.CaptureOff(m, b, s) else m
  }

  function RearmRegs(c: Control, m: Cells, b: Board, k: C.CaptureInput): Cells {
    if c.cap.demand then StartRegs(c, m, b, k) else m
  }

  /** The load of a round, as the latches and the registers see it; `q` has counted the try. */
  function Attempt(q: Control, m: Cells, b: Board, o: LoadInput): (r: (Loaded, Cells)) {
    var f := Facts(m, b, o);
    (LoadDsp(q, f), Load(m, b, o, Bails(q, f.atBorrow)))
  }

  /** The round of a tick begins with a fresh divider. */
  function Fresh(c: Control): Control {
    c.(retry := c.retry.(divider := 0))
  }

  /** The latches with which a round decides. */
  function Deciding(c: Control, m: Cells, b: Board, decodes: bool): Control {
    CountWaits(c, OutputBusy(m, b, decodes))
  }

  predicate RoundLoads(c: Control, m: Cells, b: Board, decodes: bool) {
    Attempts(Deciding(c, m, b, decodes), OutputBusy(m, b, decodes))
  }

  predicate RoundBails(c: Control, m: Cells, b: Board, decodes: bool, o: LoadInput) {
    Bails(CountTry(Deciding(c, m, b, decodes)), Facts(m, b, o).atBorrow)
  }

  function RoundAttempt(c: Control, m: Cells, b: Board, decodes: bool, o: LoadInput): (r: (Loaded, Cells)) {
    Attempt(CountTry(Deciding(c, m, b, decodes)), m, b, o)
  }

  /** Does the round's load come up? */
  predicate RoundBoots(c: Control, m: Cells, b: Board, decodes: bool, o: LoadInput) {
    RoundLoads(c, m, b, decodes) && RoundAttempt(c, m, b, decodes, o).0.up
  }

  function RoundRegs(c: Control, m: Cells, b: Board, decodes: bool, o: LoadInput, k: C.CaptureInput): Cells {
    if !RoundLoads(c, m, b, decodes) then m
    else
      var a := RoundAttempt(c, m, b, decodes, o);
      if a.0.up then RearmRegs(ClearPending(a.0.c), a.1, Found(b, o), k) else a.1
  }

  function RetryRegs(c: Control, m: Cells, b: Board, decodes: bool, o: LoadInput, k: C.CaptureInput): Cells {
    if RoundDue(c) then RoundRegs(Fresh(c), m, b, decodes, o, k) else m
  }

  function ResumeRegs(c: Control, m: Cells, b: Board, v: EngineView, k: C.CaptureInput): Cells {
    if StartsEngine(c, v) then StartRegs(c, m, b, k) else m
  }

  /** What the jack branch would do first: stop AppleHDA's output. `b` is what is known of the board. */
  function JackRegs(c: Control, m: Cells, b: Board, jack: Jack): Cells {
    if SwitchesOutput(c, jack) then ClearBits(m, Ctl0(b.sIdx), STREAM_IRQS + {RUN}) else m
  }

  /** What is known of the board after the retry part of a tick. */
  function RetryCaps(w: World, b: Board, decodes: bool, o: LoadInput): Board {
    if RoundDue(w.c) && RoundBoots(Fresh(w.c), w.m, b, decodes, o) then Found(b, o) else w.caps
  }

  function StepCaps(w: World, b: Board, e: HwEvent): Board {
    if e.HwTick? then RetryCaps(w, b, e.decodes, e.load) else w.caps
  }

  function StepRegs(w: World, b: Board, e: HwEvent): Cells {
    match e
    case HwTick(decodes, load, rearm, view, resume, jack) =>
      var o := Observe(w, b, e);
      var c1, caps := Retry(w.c, o.st, o.load, o.rearm), RetryCaps(w, b, decodes, load);
      var m1 := ResumeRegs(c1, RetryRegs(w.c, w.m, b, decodes, load, rearm), caps, view, resume);
      JackRegs(RunResume(c1, view, resume.ipc), m1, caps, jack)
    case HwClientStart(k) => StartRegs(w.c, w.m, w.caps, k)
    case HwClientStop(s) => StopRegs(w.c, w.m, w.caps, s)
    case HwEngineStart(k) => StartRegs(w.c, w.m, w.caps, k)
    case HwEngineStop(s) => StopRegs(w.c, w.m, w.caps, s)
    case HwSleep(afterD3) => afterD3
    case HwApple(ws) => Interfere(w.m, ws)
    case _ => w.m
  }

  function StepWorld(w: World, b: Board, e: HwEvent): World {
    World(Step(w.c, Observe(w, b, e)), StepRegs(w, b, e), StepCaps(w, b, e))
  }

  function RunWorld(w: World, b: Board, events: seq<HwEvent>): World
    decreases |events|
  {
    if events == [] then w else RunWorld(StepWorld(w, b, events[0]), b, events[1..])
  }

  /** The run of the latch machine inside a run of the whole. */
  function Trace(w: World, b: Board, events: seq<HwEvent>): seq<Event>
    decreases |events|
  {
    if events == [] then [] else [Observe(w, b, events[0])] + Trace(StepWorld(w, b, events[0]), b, events[1..])
  }

  lemma {:induction false} TraceIsRun(w: World, b: Board, events: seq<HwEvent>)
    ensures RunWorld(w, b, events).c == Run(w.c, Trace(w, b, events))
    decreases |events|
  {
    if events != [] {
      var t := Trace(w, b, events);
      var s := StepWorld(w, b, events[0]);
      TraceIsRun(s, b, events[1..]);
      assert t[0] == Observe(w, b, events[0]) && t[1..] == Trace(s, b, events[1..]);
    }
  }

  // ---------- from the start of the driver ----------

  /** The first load borrows: it is not deferred, and does not back off. */
  predicate FirstBorrow(strict: bool, rings: bool, m: Cells, b: Board, decodes: bool, o: LoadInput) {
    !Defers(strict, OutputBusy(m, b, decodes)) && ReachesBorrow(o) &&
    !Bails(Boot(strict, rings), Facts(m, b, o).atBorrow)
  }

  function StartWorld(strict: bool, rings: bool, m: Cells, b: Board, decodes: bool, o: LoadInput): Option<World> {
    var st := OutputBusy(m, b, decodes);
    match Start(strict, rings, st, Facts(m, b, o))
    case None => None
    case Some(c) =>
      if Defers(strict, st) then Some(World(c, m, UNKNOWN))
      else
        var a := Attempt(Boot(strict, rings), m, b, o);
        Some(World(c, a.1, if a.0.up then Found(b, o) else UNKNOWN))
  }

  lemma FirstLoadStarts(strict: bool, m: Cells, b: Board, decodes: bool, o: LoadInput)
    requires !Defers(strict, OutputBusy(m, b, decodes))
    ensures var a := Attempt(Boot(strict, true), m, b, o);
            StartWorld(strict, true, m, b, decodes, o) ==
            if a.0.up || a.0.c.retry.pending then Some(World(a.0.c, a.1, if a.0.up then Found(b, o) else UNKNOWN))
            else None
  {
  }
}
