/** What whole runs leave of AppleHDA's writes, register by register. */
module NeutralRuns {
  import opened RebuildControl
  import opened ControlInvariant
  import opened Registers
  import opened Loader
  import opened SharedRuns
  import C = Capture

  function StartWaits(c: Control, k: C.CaptureInput): seq<AppleWrite> {
    if Serves(c) then C.Waits(k) else []
  }

  function RearmWaits(c: Control, k: C.CaptureInput): seq<AppleWrite> {
    if c.cap.demand then StartWaits(c, k) else []
  }

  function StopWaits(c: Control, s: C.StopInput): seq<AppleWrite> {
    if c.cap.capturing then s.wait else []
  }

  function ResumeWaits(c: Control, v: EngineView, k: C.CaptureInput): seq<AppleWrite> {
    if StartsEngine(c, v) then StartWaits(c, k) else []
  }

  function RoundLasting(
    c: Control, m: Cells, b: Board, decodes: bool, o: LoadInput, k: C.CaptureInput, r: Reg): seq<AppleWrite>
  {
    if !RoundLoads(c, m, b, decodes) then []
    else
      var a := RoundAttempt(c, m, b, decodes, o);
      Lasting(Found(b, o), o, RoundBails(c, m, b, decodes, o), r) +
      (if a.0.up then RearmWaits(ClearPending(a.0.c), k) else [])
  }

  function RetryLasting(
    c: Control, m: Cells, b: Board, decodes: bool, o: LoadInput, k: C.CaptureInput, r: Reg): seq<AppleWrite>
  {
    if RoundDue(c) then RoundLasting(Fresh(c), m, b, decodes, o, k, r) else []
  }

  function TickLasting(w: World, b: Board, e: HwEvent, r: Reg): seq<AppleWrite>
    requires e.HwTick?
  {
    var o := Observe(w, b, e);
    var c1 := Retry(w.c, o.st, o.load, o.rearm);
    RetryLasting(w.c, w.m, b, e.decodes, e.load, e.rearm, r) + ResumeWaits(c1, e.view, e.resume)
  }

  /** AppleHDA's writes during a step that the step does not undo. */
  function StepLasting(w: World, b: Board, e: HwEvent, r: Reg): seq<AppleWrite> {
    match e
    case HwTick(_, _, _, _, _, _) => TickLasting(w, b, e, r)
    case HwClientStart(k) => StartWaits(w.c, k)
    case HwClientStop(s) => StopWaits(w.c, s)
    case HwEngineStart(k) => StartWaits(w.c, k)
    case HwEngineStop(s) => StopWaits(w.c, s)
    case HwApple(ws) => ws
    case _ => []
  }

  /** What AppleHDA alone would have made of the registers: what it wrote last, on
      top of what the last power-down left. */
  datatype Account = Account(base: Cells, writes: seq<AppleWrite>)

  function StepAccount(a: Account, w: World, b: Board, e: HwEvent, r: Reg): Account {
    if e.HwSleep? then Account(e.afterD3, []) else a.(writes := a.writes + StepLasting(w, b, e, r))
  }

  function RunAccount(a: Account, w: World, b: Board, events: seq<HwEvent>, r: Reg): Account
    decreases |events|
  {
    if events == [] then a
    else RunAccount(StepAccount(a, w, b, events[0], r), StepWorld(w, b, events[0]), b, events[1..], r)
  }

  // ---------- what a register needs ----------

  predicate SparesRound(c: Control, m: Cells, b: Board, decodes: bool, o: LoadInput, r: Reg) {
    RoundLoads(c, m, b, decodes) ==> Spares(b, o, RoundBails(c, m, b, decodes, o), r)
  }

  predicate SparesStep(w: World, b: Board, e: HwEvent, r: Reg) {
    e.HwTick? && RoundDue(w.c) ==> SparesRound(Fresh(w.c), w.m, b, e.decodes, e.load, r)
  }

  /** Every load of the run leaves register `r` to AppleHDA: Loader.Spares. */
  predicate SparesRun(w: World, b: Board, events: seq<HwEvent>, r: Reg)
    decreases |events|
  {
    events == [] || (SparesStep(w, b, events[0], r) && SparesRun(StepWorld(w, b, events[0]), b, events[1..], r))
  }

  // ---------- step by step ----------

  lemma StartIsNeutral(c: Control, m: Cells, b: Board, k: C.CaptureInput, r: Reg)
    requires C.Shared(r)
    ensures C.SameOutside(StartRegs(c, m, b, k), Interfere(m, StartWaits(c, k)), r)
  {
    C.StartFootprint(m, b, k, r);
  }

  lemma StopIsNeutral(c: Control, m: Cells, b: Board, s: C.StopInput, r: Reg)
    requires C.Shared(r)
    ensures C.SameOutside(StopRegs(c, m, b, s), Interfere(m, StopWaits(c, s)), r)
  {
    C.StopFootprint(m, b, s, r);
  }

  /** Two neutral stretches, one after the other. */
  lemma Chain(m: Cells, m1: Cells, m2: Cells, x: seq<AppleWrite>, y: seq<AppleWrite>, r: Reg)
    requires C.SameOutside(m1, Interfere(m, x), r) && C.SameOutside(m2, Interfere(m1, y), r)
    ensures C.SameOutside(m2, Interfere(m, x + y), r)
  {
    C.InterfereOutside(m1, Interfere(m, x), y, r);
    InterfereAppends(m, x, y);
  }

  lemma RoundIsNeutral(
    c: Control, m: Cells, b: Board, decodes: bool, o: LoadInput, k: C.CaptureInput, r: Reg)
    requires C.Shared(r) && SparesRound(c, m, b, decodes, o, r)
    ensures C.SameOutside(RoundRegs(c, m, b, decodes, o, k),
                          Interfere(m, RoundLasting(c, m, b, decodes, o, k, r)), r)
  {
    if RoundLoads(c, m, b, decodes) {
      var bails := RoundBails(c, m, b, decodes, o);
      var a := RoundAttempt(c, m, b, decodes, o);
      var waits := if a.0.up then RearmWaits(ClearPending(a.0.c), k) else [];
      HandBack(m, b, o, bails, r);
      StartIsNeutral(ClearPending(a.0.c), a.1, Found(b, o), k, r);
      Chain(m, a.1, RoundRegs(c, m, b, decodes, o, k), Lasting(Found(b, o), o, bails, r), waits, r);
    }
  }

  lemma RetryIsNeutral(
    c: Control, m: Cells, b: Board, decodes: bool, o: LoadInput, k: C.CaptureInput, r: Reg)
    requires C.Shared(r) && (RoundDue(c) ==> SparesRound(Fresh(c), m, b, decodes, o, r))
    ensures C.SameOutside(RetryRegs(c, m, b, decodes, o, k),
                          Interfere(m, RetryLasting(c, m, b, decodes, o, k, r)), r)
  {
    if RoundDue(c) {
      RoundIsNeutral(Fresh(c), m, b, decodes, o, k, r);
    }
  }

  lemma ResumeIsNeutral(c: Control, m: Cells, b: Board, v: EngineView, k: C.CaptureInput, r: Reg)
    requires C.Shared(r)
    ensures C.SameOutside(ResumeRegs(c, m, b, v, k), Interfere(m, ResumeWaits(c, v, k)), r)
  {
    StartIsNeutral(c, m, b, k, r);
  }

  /** The jack branch would stop AppleHDA's output; the invariant keeps it shut. */
  lemma TickIsNeutral(w: World, b: Board, e: HwEvent, r: Reg)
    requires Inv(w.c) && C.Shared(r) && e.HwTick? && SparesStep(w, b, e, r)
    ensures C.SameOutside(StepRegs(w, b, e), Interfere(w.m, TickLasting(w, b, e, r)), r)
  {
    var o := Observe(w, b, e);
    var c1, caps := Retry(w.c, o.st, o.load, o.rearm), RetryCaps(w, b, e.decodes, e.load);
    var m1 := RetryRegs(w.c, w.m, b, e.decodes, e.load, e.rearm);
    JackIsQuiet(w.c, o);
    RetryIsNeutral(w.c, w.m, b, e.decodes, e.load, e.rearm, r);
    ResumeIsNeutral(c1, m1, caps, e.view, e.resume, r);
    Chain(w.m, m1, ResumeRegs(c1, m1, caps, e.view, e.resume),
          RetryLasting(w.c, w.m, b, e.decodes, e.load, e.rearm, r), ResumeWaits(c1, e.view, e.resume), r);
  }

  lemma StepIsNeutral(w: World, b: Board, e: HwEvent, r: Reg)
    requires Inv(w.c) && C.Shared(r) && !e.HwSleep? && SparesStep(w, b, e, r)
    ensures C.SameOutside(StepRegs(w, b, e), Interfere(w.m, StepLasting(w, b, e, r)), r)
  {
    match e
    case HwTick(_, _, _, _, _, _) => TickIsNeutral(w, b, e, r);
    case HwClientStart(k) => StartIsNeutral(w.c, w.m, w.caps, k, r);
    case HwClientStop(s) => StopIsNeutral(w.c, w.m, w.caps, s, r);
    case HwEngineStart(k) => StartIsNeutral(w.c, w.m, w.caps, k, r);
    case HwEngineStop(s) => StopIsNeutral(w.c, w.m, w.caps, s, r);
    case _ =>
  }

  // ---------- runs ----------

  /** The register is what AppleHDA's account of it says. */
  predicate Accounts(a: Account, m: Cells, r: Reg) {
    C.SameOutside(m, Interfere(a.base, a.writes), r)
  }

  /** Over every run, through any number of loads, starts, stops, timeouts and
      sleeps, a register outside stream 6 that the loads spare holds what AppleHDA's
      lasting writes make of it; in PPCTL, INTCTL and the SPIB enables that is all bits
      but bit 6. */
  lemma {:induction false} RunIsNeutral(w: World, b: Board, events: seq<HwEvent>, r: Reg, a: Account)
    requires Inv(w.c) && C.Shared(r) && Accounts(a, w.m, r)
    requires SparesRun(w, b, events, r)
    ensures Accounts(RunAccount(a, w, b, events, r), RunWorld(w, b, events).m, r)
    decreases |events|
  {
    if events != [] {
      var e := events[0];
      var s := StepWorld(w, b, e);
      StepKeeps(w.c, Observe(w, b, e));
      if !e.HwSleep? {
        StepIsNeutral(w, b, e, r);
        Chain(a.base, w.m, s.m, a.writes, StepLasting(w, b, e, r), r);
      }
      RunIsNeutral(s, b, events[1..], r, StepAccount(a, w, b, e, r));
    }
  }

  /** A register that no load borrows or owns needs nothing for it. */
  predicate NeverBorrowed(b: Board, r: Reg) {
    C.Shared(r) && r !in {Em2, Wakests, Adspic, Hipcctl, Ppctl, SpibEn} && !r.Sts? && !r.SpibVal? &&
    !OfStream(r, b.sIdx) && !OfStream(r, 15) && !OfStream(r, 0)
  }

  lemma NeverBorrowedByLoads(b: Board, o: LoadInput, bails: bool, r: Reg)
    requires NeverBorrowed(b, r)
    ensures Spares(b, o, bails, r)
  {
    var f := Found(b, o);
    assert !OfStream(r, f.sIdx) && !Borrowed(f, r) && !Touched(f, r);
  }

  lemma NeverBorrowedByStep(w: World, b: Board, e: HwEvent, r: Reg)
    requires NeverBorrowed(b, r)
    ensures SparesStep(w, b, e, r)
  {
    if e.HwTick? && RoundDue(w.c) {
      NeverBorrowedByLoads(b, e.load, RoundBails(Fresh(w.c), w.m, b, e.decodes, e.load), r);
    }
  }

  lemma {:induction false} NeverBorrowedIsSpared(w: World, b: Board, events: seq<HwEvent>, r: Reg)
    requires NeverBorrowed(b, r)
    ensures SparesRun(w, b, events, r)
    decreases |events|
  {
    if events != [] {
      var s := StepWorld(w, b, events[0]);
      NeverBorrowedByStep(w, b, events[0], r);
      NeverBorrowedIsSpared(s, b, events[1..], r);
    }
  }
}
