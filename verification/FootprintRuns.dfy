/** Capture in the latches and capture in the registers, over whole runs. */
module FootprintRuns {
  import opened RebuildControl
  import opened ControlInvariant
  import opened Registers
  import opened Loader
  import opened LoadBesideCapture
  import opened SharedRuns
  import C = Capture

  // ---------- what the runs assume ----------

  predicate PoliteStart(k: C.CaptureInput) {
    C.AllPolite(k.params) && C.AllPolite(k.trig)
  }

  /** AppleHDA leaves the capture stream alone, and D3 stops it and clears the DSP. */
  predicate PoliteEvent(e: HwEvent) {
    match e
    case HwTick(_, load, rearm, _, resume, _) => PoliteLoad(load) && PoliteStart(rearm) && PoliteStart(resume)
    case HwClientStart(k) => PoliteStart(k)
    case HwClientStop(s) => C.AllPolite(s.wait)
    case HwEngineStart(k) => PoliteStart(k)
    case HwEngineStop(s) => C.AllPolite(s.wait)
    case HwSleep(afterD3) => C.Off(afterD3) && Rd(afterD3, Adspic) == {}
    case HwApple(ws) => C.AllPolite(ws)
    case _ => true
  }

  predicate PoliteRun(events: seq<HwEvent>) {
    forall i :: 0 <= i < |events| ==> PoliteEvent(events[i])
  }

  /** Only on a board whose first output has index 5 or 6 can a load touch capture. */
  predicate OutputNearCapture(b: Board) {
    b.sIdx == C.CAP || b.sIdx + 1 == C.CAP
  }

  predicate KeepsRound(c: Control, m: Cells, b: Board, decodes: bool, o: LoadInput) {
    RoundLoads(c, m, b, decodes) && ReachesBorrow(o) && !RoundBails(c, m, b, decodes, o) ==> KeepsCapture(b, o)
  }

  predicate KeepsStep(w: World, b: Board, e: HwEvent) {
    e.HwTick? && RoundDue(w.c) ==> KeepsRound(Fresh(w.c), w.m, b, e.decodes, e.load)
  }

  /** On such a board: each load that borrows in the run spares capture. */
  predicate KeepsRun(w: World, b: Board, events: seq<HwEvent>)
    decreases |events|
  {
    events == [] || (KeepsStep(w, b, events[0]) && KeepsRun(StepWorld(w, b, events[0]), b, events[1..]))
  }

  lemma KeepsElsewhere(w: World, b: Board, e: HwEvent)
    requires !OutputNearCapture(b)
    ensures KeepsStep(w, b, e)
  {
    if e.HwTick? {
      OtherBoardsKeepCapture(b, e.load);
    }
  }

  predicate LandsStart(c: Control, caps: Board, k: C.CaptureInput) {
    Serves(c) ==> C.SoundStart(caps, k)
  }

  predicate LandsRearm(c: Control, caps: Board, k: C.CaptureInput) {
    c.cap.demand ==> LandsStart(c, caps, k)
  }

  /** The start that follows a successful load, if a session is latched. */
  predicate LandsRound(c: Control, m: Cells, b: Board, decodes: bool, o: LoadInput, k: C.CaptureInput) {
    RoundBoots(c, m, b, decodes, o) ==>
      LandsRearm(ClearPending(RoundAttempt(c, m, b, decodes, o).0.c), Found(b, o), k)
  }

  predicate LandsResume(c: Control, caps: Board, v: EngineView, k: C.CaptureInput) {
    StartsEngine(c, v) ==> LandsStart(c, caps, k)
  }

  predicate LandsStop(c: Control, caps: Board, s: C.StopInput) {
    c.cap.capturing ==> C.SoundStop(caps, s)
  }

  /** The capture starts and stops of a step are sound. */
  predicate LandsStep(w: World, b: Board, e: HwEvent) {
    match e
    case HwTick(decodes, load, rearm, view, resume, _) =>
      var o := Observe(w, b, e);
      (RoundDue(w.c) ==> LandsRound(Fresh(w.c), w.m, b, decodes, load, rearm)) &&
      LandsResume(Retry(w.c, o.st, o.load, o.rearm), RetryCaps(w, b, decodes, load), view, resume)
    case HwClientStart(k) => LandsStart(w.c, w.caps, k)
    case HwClientStop(s) => LandsStop(w.c, w.caps, s)
    case HwEngineStart(k) => LandsStart(w.c, w.caps, k)
    case HwEngineStop(s) => LandsStop(w.c, w.caps, s)
    case _ => true
  }

  predicate LandsRun(w: World, b: Board, events: seq<HwEvent>)
    decreases |events|
  {
    events == [] || (LandsStep(w, b, events[0]) && LandsRun(StepWorld(w, b, events[0]), b, events[1..]))
  }

  // ---------- the agreement ----------

  /** Capture is on in the latches exactly when it is on in the registers. */
  predicate Agrees(capturing: bool, m: Cells, caps: Board) {
    if capturing then C.On(m, caps) else C.Off(m)
  }

  ghost predicate WorldInv(w: World) {
    Inv(w.c) && Agrees(w.c.cap.capturing, w.m, w.caps)
  }

  lemma StartAgrees(c: Control, m: Cells, caps: Board, k: C.CaptureInput)
    requires Inv(c) && Agrees(c.cap.capturing, m, caps) && PoliteStart(k)
    ensures Agrees(StartCapture(c, k.ipc).c.cap.capturing, StartRegs(c, m, caps, k), caps) <==> LandsStart(c, caps, k)
  {
    if Serves(c) {
      C.StartIsExact(m, caps, k);
    }
  }

  lemma StopAgrees(c: Control, m: Cells, caps: Board, s: C.StopInput)
    requires Inv(c) && Agrees(c.cap.capturing, m, caps) && C.AllPolite(s.wait)
    ensures Agrees(StopCapture(c, s.answered).cap.capturing, StopRegs(c, m, caps, s), caps) <==> LandsStop(c, caps, s)
  {
    if c.cap.capturing {
      C.StopIsExact(m, caps, s);
    }
  }

  lemma RearmAgrees(c: Control, m: Cells, caps: Board, k: C.CaptureInput)
    requires Inv(c) && Agrees(c.cap.capturing, m, caps) && PoliteStart(k)
    ensures Agrees(Rearm(c, k.ipc).cap.capturing, RearmRegs(c, m, caps, k), caps) <==> LandsRearm(c, caps, k)
  {
    StartAgrees(c, m, caps, k);
  }

  lemma EngineStartAgrees(c: Control, m: Cells, caps: Board, k: C.CaptureInput)
    requires Inv(c) && Agrees(c.cap.capturing, m, caps) && PoliteStart(k)
    ensures Agrees(PerformEngineStart(c, k.ipc).c.cap.capturing, StartRegs(c, m, caps, k), caps) <==>
            LandsStart(c, caps, k)
  {
    StartAgrees(c, m, caps, k);
  }

  lemma ResumeAgrees(c: Control, m: Cells, caps: Board, v: EngineView, k: C.CaptureInput)
    requires Inv(c) && Agrees(c.cap.capturing, m, caps) && PoliteStart(k)
    ensures Agrees(RunResume(c, v, k.ipc).cap.capturing, ResumeRegs(c, m, caps, v, k), caps) <==>
            LandsResume(c, caps, v, k)
  {
    if StartsEngine(c, v) {
      EngineStartAgrees(c, m, caps, k);
    }
  }

  lemma AttemptAgrees(q: Control, m: Cells, b: Board, o: LoadInput)
    requires !q.cap.capturing && C.Off(m) && PoliteLoad(o)
    requires ReachesBorrow(o) && !Bails(q, Facts(m, b, o).atBorrow) ==> KeepsCapture(b, o)
    ensures var a := Attempt(q, m, b, o); !a.0.c.cap.capturing && C.Off(a.1)
  {
    LoadKeepsCapture(m, b, o, Bails(q, Facts(m, b, o).atBorrow));
  }

  lemma AttemptBoots(q: Control, m: Cells, b: Board, o: LoadInput)
    requires !q.cap.ready && q.setup.mapped && q.setup.rings && !q.setup.i2cMapped && !q.cap.playing
    requires q.retry.divider < TICKS_PER_ROUND && (q.resume.pending ==> q.resume.tries < RESUME_MAX_TRIES)
    ensures var a := Attempt(q, m, b, o); a.0.up ==> Inv(ClearPending(a.0.c))
  {
  }

  lemma RoundAgrees(
    c: Control, m: Cells, b: Board, caps: Board, decodes: bool, o: LoadInput, k: C.CaptureInput)
    requires Inv(c) && RetryArmed(c) && C.Off(m) && PoliteLoad(o) && PoliteStart(k)
    requires KeepsRound(c, m, b, decodes, o) && LandsRound(c, m, b, decodes, o, k)
    ensures Agrees(Round(c, OutputBusy(m, b, decodes), Facts(m, b, o), k.ipc).cap.capturing,
                   RoundRegs(c, m, b, decodes, o, k),
                   if RoundBoots(c, m, b, decodes, o) then Found(b, o) else caps)
  {
    if RoundLoads(c, m, b, decodes) {
      var q := CountTry(Deciding(c, m, b, decodes));
      var a := Attempt(q, m, b, o);
      AttemptAgrees(q, m, b, o);
      AttemptBoots(q, m, b, o);
      if a.0.up {
        RearmAgrees(ClearPending(a.0.c), a.1, Found(b, o), k);
      }
    }
  }

  lemma RetryAgrees(w: World, b: Board, e: HwEvent)
    requires WorldInv(w) && PoliteEvent(e) && e.HwTick? && KeepsStep(w, b, e) && LandsStep(w, b, e)
    ensures var o := Observe(w, b, e);
            Agrees(Retry(w.c, o.st, o.load, o.rearm).cap.capturing,
                   RetryRegs(w.c, w.m, b, e.decodes, e.load, e.rearm), RetryCaps(w, b, e.decodes, e.load))
  {
    if RoundDue(w.c) {
      RoundAgrees(Fresh(w.c), w.m, b, w.caps, e.decodes, e.load, e.rearm);
    }
  }

  lemma TickAgrees(w: World, b: Board, e: HwEvent)
    requires WorldInv(w) && PoliteEvent(e) && e.HwTick? && KeepsStep(w, b, e) && LandsStep(w, b, e)
    ensures Agrees(Step(w.c, Observe(w, b, e)).cap.capturing, StepRegs(w, b, e), StepCaps(w, b, e))
  {
    var o := Observe(w, b, e);
    JackIsQuiet(w.c, o);
    RetryKeeps(w.c, o.st, o.load, o.rearm);
    RetryAgrees(w, b, e);
    ResumeAgrees(Retry(w.c, o.st, o.load, o.rearm), RetryRegs(w.c, w.m, b, e.decodes, e.load, e.rearm),
                 RetryCaps(w, b, e.decodes, e.load), e.view, e.resume);
  }

  /** Every other step keeps latches and registers in step if and only if its
      capture start or stop is sound. */
  lemma HandlerAgrees(w: World, b: Board, e: HwEvent)
    requires WorldInv(w) && PoliteEvent(e) && !e.HwTick?
    ensures Agrees(Step(w.c, Observe(w, b, e)).cap.capturing, StepRegs(w, b, e), w.caps) <==> LandsStep(w, b, e)
  {
    match e
    case HwClientStart(k) => StartAgrees(w.c, w.m, w.caps, k);
    case HwClientStop(s) => StopAgrees(w.c, w.m, w.caps, s);
    case HwEngineStart(k) => EngineStartAgrees(w.c, w.m, w.caps, k);
    case HwEngineStop(s) => StopAgrees(w.c.(resume := w.c.resume.(engineRunning := false)), w.m, w.caps, s);
    case HwApple(ws) => C.PoliteKeeps(w.m, ws);
    case _ =>
  }

  lemma StepAgrees(w: World, b: Board, e: HwEvent)
    requires WorldInv(w) && PoliteEvent(e) && LandsStep(w, b, e)
    requires OutputNearCapture(b) ==> KeepsStep(w, b, e)
    ensures WorldInv(StepWorld(w, b, e))
  {
    StepKeeps(w.c, Observe(w, b, e));
    if e.HwTick? {
      if !OutputNearCapture(b) {
        KeepsElsewhere(w, b, e);
      }
      TickAgrees(w, b, e);
    } else {
      HandlerAgrees(w, b, e);
    }
  }

  /** At every step boundary of every run whose capture starts and stops are sound,
      whatever becomes of its loads: the capture stream runs if and only if the driver
      captures, and is decoupled if and only if it does so and knows of PPCTL. Only
      where AppleHDA's first output is stream 5 or 6 must the loads spare capture. */
  lemma {:induction false} FootprintAgrees(w: World, b: Board, events: seq<HwEvent>)
    requires WorldInv(w) && PoliteRun(events) && LandsRun(w, b, events)
    requires OutputNearCapture(b) ==> KeepsRun(w, b, events)
    ensures WorldInv(RunWorld(w, b, events))
    decreases |events|
  {
    if events != [] {
      StepAgrees(w, b, events[0]);
      FootprintAgrees(StepWorld(w, b, events[0]), b, events[1..]);
    }
  }

  // ---------- what is known of the board ----------

  /** A load that comes up has found PPCTL if the board has it. */
  predicate FindsStep(w: World, b: Board, e: HwEvent) {
    e.HwTick? && RoundDue(w.c) && RoundBoots(Fresh(w.c), w.m, b, e.decodes, e.load) ==> Found(b, e.load).pp == b.pp
  }

  predicate FindsRun(w: World, b: Board, events: seq<HwEvent>)
    decreases |events|
  {
    events == [] || (FindsStep(w, b, events[0]) && FindsRun(StepWorld(w, b, events[0]), b, events[1..]))
  }

  /** While the DSP is up, the driver knows whether there is a PPCTL. */
  predicate Knows(w: World, b: Board) {
    w.c.cap.ready ==> w.caps.pp == b.pp
  }

  lemma OnlyLoadsReady(w: World, b: Board, e: HwEvent)
    requires e.HwTick?
    ensures var o := Observe(w, b, e);
            Retry(w.c, o.st, o.load, o.rearm).cap.ready ==>
              w.c.cap.ready || (RoundDue(w.c) && RoundBoots(Fresh(w.c), w.m, b, e.decodes, e.load))
  {
  }

  lemma ResumeReadiesNothing(c: Control, v: EngineView, ipc: StartIpc)
    ensures RunResume(c, v, ipc).cap.ready ==> c.cap.ready
  {
  }

  lemma StepKnows(w: World, b: Board, e: HwEvent)
    requires Inv(w.c) && Knows(w, b) && FindsStep(w, b, e)
    ensures Knows(StepWorld(w, b, e), b)
  {
    if e.HwTick? {
      var o := Observe(w, b, e);
      JackIsQuiet(w.c, o);
      OnlyLoadsReady(w, b, e);
      ResumeReadiesNothing(Retry(w.c, o.st, o.load, o.rearm), e.view, e.resume.ipc);
      assert RoundDue(w.c) ==> !w.c.cap.ready;
    } else {
      OtherStepsReadyNothing(w.c, Observe(w, b, e));
    }
  }

  lemma OtherStepsReadyNothing(c: Control, e: Event)
    requires !e.Tick?
    ensures Step(c, e).cap.ready ==> c.cap.ready
  {
  }

  lemma {:induction false} RunKnows(w: World, b: Board, events: seq<HwEvent>)
    requires Inv(w.c) && Knows(w, b) && FindsRun(w, b, events)
    ensures Knows(RunWorld(w, b, events), b)
    decreases |events|
  {
    if events != [] {
      StepKeeps(w.c, Observe(w, b, events[0]));
      StepKnows(w, b, events[0]);
      RunKnows(StepWorld(w, b, events[0]), b, events[1..]);
    }
  }

  /** Where every load that came up found the board's capabilities: capturing, the RUN
      bit of stream 6 and, on a board with PPCTL, its bit 6 are one and the same fact. */
  lemma FootprintIsWhole(w: World, b: Board, events: seq<HwEvent>)
    requires WorldInv(w) && Knows(w, b) && PoliteRun(events) && LandsRun(w, b, events) && FindsRun(w, b, events)
    requires OutputNearCapture(b) ==> KeepsRun(w, b, events)
    ensures var v := RunWorld(w, b, events);
            (v.c.cap.capturing <==> C.StreamRuns(v.m)) && (b.pp ==> (v.c.cap.capturing <==> C.StreamDecoupled(v.m)))
  {
    FootprintAgrees(w, b, events);
    RunKnows(w, b, events);
  }

  /** A load that borrows from a controller that is gone forgets PPCTL, so if it comes
      up all the same, capture runs coupled until the next load. */
  lemma BlindLoadRunsCoupled(m: Cells, b: Board, o: LoadInput, k: C.CaptureInput)
    requires !o.stillDecodes && C.Off(m) && PoliteStart(k) && k.ipc.Answered? && k.afterParams
    ensures var n := C.CaptureOn(m, Found(b, o), k); C.StreamRuns(n) && !C.StreamDecoupled(n)
  {
    C.StartEffect(m, Found(b, o), k);
  }

  // ---------- the DSP's interrupt ----------

  predicate Masked(m: Cells) {
    0 !in Rd(m, Adspic)
  }

  predicate StepLoads(w: World, b: Board, e: HwEvent) {
    e.HwTick? && RoundDue(w.c) && RoundLoads(Fresh(w.c), w.m, b, e.decodes)
  }

  predicate StepBails(w: World, b: Board, e: HwEvent)
    requires e.HwTick?
  {
    RoundBails(Fresh(w.c), w.m, b, e.decodes, e.load)
  }

  /** The step masks the interrupt: power goes, or a load's cleanup lands. */
  predicate Masks(w: World, b: Board, e: HwEvent) {
    e.HwSleep? || (StepLoads(w, b, e) && CleansUp(e.load, StepBails(w, b, e)))
  }

  /** The step leaves it switched on: a load does, and its cleanup does not land. */
  predicate LeavesOn(w: World, b: Board, e: HwEvent) {
    StepLoads(w, b, e) && Unmasks(e.load, StepBails(w, b, e)) && !CleansUp(e.load, StepBails(w, b, e))
  }

  function MaskAfter(masked: bool, w: World, b: Board, events: seq<HwEvent>): bool
    decreases |events|
  {
    if events == [] then masked
    else
      var e := events[0];
      MaskAfter(Masks(w, b, e) || (masked && !LeavesOn(w, b, e)), StepWorld(w, b, e), b, events[1..])
  }

  lemma StartIrq(c: Control, m: Cells, caps: Board, k: C.CaptureInput)
    requires PoliteStart(k)
    ensures Rd(StartRegs(c, m, caps, k), Adspic) == Rd(m, Adspic)
  {
    C.StartKeepsIrq(m, caps, k);
  }

  lemma LoadIrq(m: Cells, b: Board, o: LoadInput, bails: bool)
    requires PoliteLoad(o)
    ensures Masked(Load(m, b, o, bails)) <==> CleansUp(o, bails) || (Masked(m) && !Unmasks(o, bails))
  {
    WritesArePolite(o);
    forall w | w in Before(o) + During(o) + After(o)
      ensures w.reg != Adspic
    {
      var all := Before(o) + During(o) + After(o);
      var i :| 0 <= i < |all| && all[i] == w;
      assert C.AllPolite(all) && C.Polite(all[i]);
    }
    InterruptMasked(m, b, o, bails);
  }

  lemma TickIrq(w: World, b: Board, e: HwEvent)
    requires Inv(w.c) && PoliteEvent(e) && e.HwTick?
    ensures Masked(StepRegs(w, b, e)) <==> Masks(w, b, e) || (Masked(w.m) && !LeavesOn(w, b, e))
  {
    var o := Observe(w, b, e);
    var c1 := Retry(w.c, o.st, o.load, o.rearm);
    var m1 := RetryRegs(w.c, w.m, b, e.decodes, e.load, e.rearm);
    JackIsQuiet(w.c, o);
    StartIrq(c1, m1, RetryCaps(w, b, e.decodes, e.load), e.resume);
    assert Rd(StepRegs(w, b, e), Adspic) == Rd(m1, Adspic);
    if StepLoads(w, b, e) {
      var a := RoundAttempt(Fresh(w.c), w.m, b, e.decodes, e.load);
      LoadIrq(w.m, b, e.load, StepBails(w, b, e));
      StartIrq(ClearPending(a.0.c), a.1, Found(b, e.load), e.rearm);
    }
  }

  lemma StepIrq(w: World, b: Board, e: HwEvent)
    requires Inv(w.c) && PoliteEvent(e)
    ensures Masked(StepRegs(w, b, e)) <==> Masks(w, b, e) || (Masked(w.m) && !LeavesOn(w, b, e))
  {
    match e
    case HwTick(_, _, _, _, _, _) => TickIrq(w, b, e);
    case HwClientStart(k) => StartIrq(w.c, w.m, w.caps, k);
    case HwEngineStart(k) => StartIrq(w.c, w.m, w.caps, k);
    case HwClientStop(s) => C.StopEffect(w.m, w.caps, s);
    case HwEngineStop(s) => C.StopEffect(w.m, w.caps, s);
    case HwApple(ws) => C.PoliteKeeps(w.m, ws);
    case _ =>
  }

  /** Whatever the interrupt was at first: at every step boundary it is masked if and
      only if, of the steps that touched it, the last one masked it. */
  lemma {:induction false} InterruptFollowsCleanups(w: World, b: Board, events: seq<HwEvent>)
    requires Inv(w.c) && PoliteRun(events)
    ensures Masked(RunWorld(w, b, events).m) <==> MaskAfter(Masked(w.m), w, b, events)
    decreases |events|
  {
    if events != [] {
      StepIrq(w, b, events[0]);
      StepKeeps(w.c, Observe(w, b, events[0]));
      InterruptFollowsCleanups(StepWorld(w, b, events[0]), b, events[1..]);
    }
  }

  predicate MasksOnce(w: World, b: Board, events: seq<HwEvent>)
    decreases |events|
  {
    events != [] && (Masks(w, b, events[0]) || MasksOnce(StepWorld(w, b, events[0]), b, events[1..]))
  }

  predicate CleanupsLand(w: World, b: Board, events: seq<HwEvent>)
    decreases |events|
  {
    events == [] || (!LeavesOn(w, b, events[0]) && CleanupsLand(StepWorld(w, b, events[0]), b, events[1..]))
  }

  lemma {:induction false} MaskStays(masked: bool, w: World, b: Board, events: seq<HwEvent>)
    requires CleanupsLand(w, b, events)
    ensures MaskAfter(masked, w, b, events) <==> masked || MasksOnce(w, b, events)
    decreases |events|
  {
    if events != [] {
      MaskStays(Masks(w, b, events[0]) || masked, StepWorld(w, b, events[0]), b, events[1..]);
    }
  }

  /** So, with cleanups that land, ADSPIC bit 0 is clear from the first of them on. */
  lemma InterruptStaysMasked(w: World, b: Board, events: seq<HwEvent>)
    requires Inv(w.c) && PoliteRun(events) && CleanupsLand(w, b, events)
    ensures 0 !in Rd(RunWorld(w, b, events).m, Adspic) <==> 0 !in Rd(w.m, Adspic) || MasksOnce(w, b, events)
  {
    InterruptFollowsCleanups(w, b, events);
    MaskStays(Masked(w.m), w, b, events);
  }
}
