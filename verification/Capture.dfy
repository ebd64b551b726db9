/**
 Starting and stopping capture on the shared registers. Capture runs on input
 stream 6; outside a capture its bits in the shared registers are all clear. `b` is
 what the last successful load found of the board.
 */
module Capture {
  import opened RebuildControl
  import opened Registers

  const CAP: nat := 6

  /** What a start meets; `live` and the two after it say whether the controller
      decodes at first and after each of the two waits. */
  datatype CaptureInput = CaptureInput(
    ipc: StartIpc, ack1: bool, ack2: bool,
    live: bool, afterParams: bool, afterTrig: bool,
    bdlLow: Word, bdlHigh: Word, ringSize: Word, lastEntry: Word,
    params: seq<AppleWrite>, trig: seq<AppleWrite>)

  datatype StopInput = StopInput(answered: bool, live: bool, afterWait: bool, wait: seq<AppleWrite>)

  function Couple(m: Cells, b: Board): Cells {
    if b.pp then ClearBits(m, Ppctl, {CAP}) else m
  }

  function Decouple(m: Cells, b: Board): Cells {
    if b.pp then SetBits(m, Ppctl, {CAP}) else m
  }

  function LoadRing(m: Cells, k: CaptureInput): Cells {
    m[Bdpl(CAP) := k.bdlLow][Bdpu(CAP) := k.bdlHigh][Cbl(CAP) := k.ringSize][Lvi(CAP) := k.lastEntry]
  }

  /** The controller takes the format only while the stream is coupled. */
  function WriteFormat(m: Cells, b: Board): Cells {
    ClearBits(Decouple(Couple(m, b)[Fmt(CAP) := {0, 6}], b)[Ctl2(CAP) := {4, 5, 6}], Ctl0(CAP), STREAM_IRQS)
  }

  /** Two resets, the ring, the format, the tag; every interrupt of the stream off. */
  function ProgramCapture(m: Cells, b: Board, k: CaptureInput): Cells {
    var m1 := Decouple(ClearBits(m, Intctl, {CAP}), b);
    WriteFormat(LoadRing(ResetStream(ResetStream(m1, CAP, k.ack1), CAP, k.ack2), k), b)
  }

  function RunCapture(m: Cells, b: Board): Cells {
    var m1 := SetBits(m, Hipcctl, {1});
    var m2 := if b.spib then ClearBits(m1, SpibEn, {CAP}) else m1;
    var m3 := ClearBits(m2, Sts(CAP), STATUS_BITS);
    SetBits(m3[Ctl0(CAP) := Rd(m3, Ctl0(CAP)) - STREAM_IRQS + {RUN}], Hipcctl, {1})
  }

  function HaltCapture(m: Cells, b: Board): Cells {
    Couple(ClearBits(ClearBits(m, Ctl0(CAP), {RUN}), Sts(CAP), STATUS_BITS), b)
  }

  function ProgramStage(m: Cells, b: Board, k: CaptureInput): Cells {
    Interfere(Landed(k.live, m, ProgramCapture(m, b, k)), k.params)
  }

  function RunStage(m: Cells, b: Board, k: CaptureInput): Cells {
    Interfere(Landed(k.afterParams, m, RunCapture(m, b)), k.trig)
  }

  /** A capture start from the moment it is not refused. */
  function CaptureOn(m: Cells, b: Board, k: CaptureInput): Cells {
    var m1 := ProgramStage(m, b, k);
    if k.ipc.ParamsTimeout? then Landed(k.afterParams, m1, Couple(m1, b))
    else
      var m2 := RunStage(m1, b, k);
      Landed(k.afterTrig, m2, if k.ipc.TrigTimeout? then HaltCapture(m2, b) else SetBits(m2, Hipcctl, {1}))
  }

  function StopStream(m: Cells): Cells {
    var m1 := ClearBits(m, Ctl0(CAP), STREAM_IRQS + {RUN});
    SetBits(ClearBits(ClearBits(m1, Sts(CAP), STATUS_BITS), Intctl, {CAP}), Hipcctl, {1})
  }

  /** The stop of a running capture. */
  function CaptureOff(m: Cells, b: Board, s: StopInput): Cells {
    var m1 := Interfere(Landed(s.live, m, StopStream(m)), s.wait);
    Landed(s.afterWait, m1, Couple(m1, b))
  }

  // ---------- the footprint ----------

  /** The capture bit of the three registers that hold one bit per stream. */
  function OwnBits(r: Reg): Word {
    if r.Ppctl? || r.Intctl? || r.SpibEn? then {CAP} else {}
  }

  predicate Shared(r: Reg) {
    !OfStream(r, CAP) && r != Hipcctl
  }

  predicate SameOutside(m: Cells, n: Cells, r: Reg) {
    Rd(m, r) - OwnBits(r) == Rd(n, r) - OwnBits(r)
  }

  lemma InterfereOutside(m: Cells, n: Cells, ws: seq<AppleWrite>, r: Reg)
    requires SameOutside(m, n, r)
    ensures SameOutside(Interfere(m, ws), Interfere(n, ws), r)
  {
    Effect(m, ws, r);
    Effect(n, ws, r);
    var x, y, o, f, s := Rd(m, r), Rd(n, r), Replaced(ws, r), Forced(ws, r), OwnBits(r);
    assert (x - o + f) - s == (x - s) - o + (f - s);
    assert (y - o + f) - s == (y - s) - o + (f - s);
  }

  lemma CoupleOutside(m: Cells, b: Board, r: Reg)
    ensures SameOutside(Couple(m, b), m, r) && SameOutside(Decouple(m, b), m, r)
  {
  }

  lemma FormatOutside(m: Cells, b: Board, r: Reg)
    requires Shared(r)
    ensures SameOutside(WriteFormat(m, b), m, r)
  {
    CoupleOutside(m, b, r);
    CoupleOutside(Couple(m, b)[Fmt(CAP) := {0, 6}], b, r);
  }

  lemma ProgramOutside(m: Cells, b: Board, k: CaptureInput, r: Reg)
    requires Shared(r)
    ensures SameOutside(ProgramCapture(m, b, k), m, r)
  {
    var m1 := Decouple(ClearBits(m, Intctl, {CAP}), b);
    CoupleOutside(ClearBits(m, Intctl, {CAP}), b, r);
    ResetFrame(m1, CAP, k.ack1, r);
    var m2 := ResetStream(m1, CAP, k.ack1);
    ResetFrame(m2, CAP, k.ack2, r);
    FormatOutside(LoadRing(ResetStream(m2, CAP, k.ack2), k), b, r);
  }

  lemma RunOutside(m: Cells, b: Board, r: Reg)
    requires Shared(r)
    ensures SameOutside(RunCapture(m, b), m, r)
  {
  }

  lemma HaltOutside(m: Cells, b: Board, r: Reg)
    requires Shared(r)
    ensures SameOutside(HaltCapture(m, b), m, r)
  {
    CoupleOutside(ClearBits(ClearBits(m, Ctl0(CAP), {RUN}), Sts(CAP), STATUS_BITS), b, r);
  }

  lemma StopOutside(m: Cells, r: Reg)
    requires Shared(r)
    ensures SameOutside(StopStream(m), m, r)
  {
  }

  /** AppleHDA's writes while a start was under way. */
  function Waits(k: CaptureInput): seq<AppleWrite> {
    k.params + (if k.ipc.ParamsTimeout? then [] else k.trig)
  }

  /** Whatever becomes of the start, the rest of the controller is as AppleHDA left it. */
  lemma StartFootprint(m: Cells, b: Board, k: CaptureInput, r: Reg)
    requires Shared(r)
    ensures SameOutside(CaptureOn(m, b, k), Interfere(m, Waits(k)), r)
  {
    var m1 := ProgramStage(m, b, k);
    ProgramOutside(m, b, k, r);
    InterfereOutside(Landed(k.live, m, ProgramCapture(m, b, k)), m, k.params, r);
    if k.ipc.ParamsTimeout? {
      assert Waits(k) == k.params;
      CoupleOutside(m1, b, r);
    } else {
      RunStageFootprint(m1, Interfere(m, k.params), b, k, r);
      InterfereAppends(m, k.params, k.trig);
    }
  }

  lemma RunStageFootprint(m: Cells, n: Cells, b: Board, k: CaptureInput, r: Reg)
    requires Shared(r) && SameOutside(m, n, r)
    ensures var m2 := RunStage(m, b, k);
            SameOutside(m2, Interfere(n, k.trig), r) &&
            SameOutside(HaltCapture(m2, b), Interfere(n, k.trig), r) &&
            SameOutside(SetBits(m2, Hipcctl, {1}), Interfere(n, k.trig), r)
  {
    RunOutside(m, b, r);
    InterfereOutside(Landed(k.afterParams, m, RunCapture(m, b)), n, k.trig, r);
    HaltOutside(RunStage(m, b, k), b, r);
  }

  lemma StopFootprint(m: Cells, b: Board, s: StopInput, r: Reg)
    requires Shared(r)
    ensures SameOutside(CaptureOff(m, b, s), Interfere(m, s.wait), r)
  {
    StopOutside(m, r);
    InterfereOutside(Landed(s.live, m, StopStream(m)), m, s.wait, r);
    CoupleOutside(Interfere(Landed(s.live, m, StopStream(m)), s.wait), b, r);
  }

  // ---------- the capture stream itself ----------

  /** AppleHDA respects the capture stream: it never writes its descriptor or the
      DSP's registers, and leaves its bit alone when it changes PPCTL. */
  predicate Polite(w: AppleWrite) {
    !OfStream(w.reg, CAP) && w.reg != Adspic && w.reg != Hipcctl && (w.reg == Ppctl ==> CAP !in w.own)
  }

  predicate AllPolite(ws: seq<AppleWrite>) {
    forall i :: 0 <= i < |ws| ==> Polite(ws[i])
  }

  predicate StreamRuns(m: Cells) {
    RUN in Rd(m, Ctl0(CAP))
  }

  predicate StreamDecoupled(m: Cells) {
    CAP in Rd(m, Ppctl)
  }

  lemma {:induction false} PoliteReplaces(ws: seq<AppleWrite>, r: Reg)
    requires AllPolite(ws)
    ensures OfStream(r, CAP) || r == Adspic ==> Replaced(ws, r) == {}
    ensures r == Ppctl ==> CAP !in Replaced(ws, r)
    decreases |ws|
  {
    if ws != [] {
      assert Polite(ws[0]);
      PoliteReplaces(ws[1..], r);
    }
  }

  lemma PoliteKeeps(m: Cells, ws: seq<AppleWrite>)
    requires AllPolite(ws)
    ensures Rd(Interfere(m, ws), Ctl0(CAP)) == Rd(m, Ctl0(CAP))
    ensures Rd(Interfere(m, ws), Adspic) == Rd(m, Adspic)
    ensures StreamDecoupled(Interfere(m, ws)) == StreamDecoupled(m)
  {
    PoliteReplaces(ws, Ctl0(CAP));
    PoliteReplaces(ws, Adspic);
    PoliteReplaces(ws, Ppctl);
    ForcedWithinReplaced(ws, Ctl0(CAP));
    ForcedWithinReplaced(ws, Adspic);
    ForcedWithinReplaced(ws, Ppctl);
    Effect(m, ws, Ctl0(CAP));
    Effect(m, ws, Adspic);
    Effect(m, ws, Ppctl);
  }

  lemma FormatEffect(m: Cells, b: Board)
    ensures var p := WriteFormat(m, b);
            StreamRuns(p) == StreamRuns(m) && (StreamDecoupled(p) <==> b.pp || StreamDecoupled(m)) &&
            Rd(p, Adspic) == Rd(m, Adspic)
  {
  }

  lemma ResetStops(m: Cells, i: nat, ack: bool)
    ensures Rd(ResetStream(m, i, ack), Ctl0(i)) == {}
  {
  }

  lemma ProgramEffect(m: Cells, b: Board, k: CaptureInput)
    ensures var p := ProgramCapture(m, b, k);
            !StreamRuns(p) && (StreamDecoupled(p) <==> b.pp || StreamDecoupled(m)) && Rd(p, Adspic) == Rd(m, Adspic)
  {
    var m1 := Decouple(ClearBits(m, Intctl, {CAP}), b);
    var m2 := ResetStream(m1, CAP, k.ack1);
    var m3 := ResetStream(m2, CAP, k.ack2);
    ResetStops(m2, CAP, k.ack2);
    ResetEffect(m1, k.ack1);
    ResetEffect(m2, k.ack2);
    assert StreamDecoupled(m1) <==> b.pp || StreamDecoupled(m);
    RingEffect(m3, k);
    FormatEffect(LoadRing(m3, k), b);
  }

  lemma ResetEffect(m: Cells, ack: bool)
    ensures var n := ResetStream(m, CAP, ack);
            StreamDecoupled(n) == StreamDecoupled(m) && Rd(n, Adspic) == Rd(m, Adspic)
  {
    ResetFrame(m, CAP, ack, Ppctl);
    ResetFrame(m, CAP, ack, Adspic);
  }

  lemma RingEffect(m: Cells, k: CaptureInput)
    ensures var n := LoadRing(m, k);
            StreamRuns(n) == StreamRuns(m) && StreamDecoupled(n) == StreamDecoupled(m) && Rd(n, Adspic) == Rd(m, Adspic)
  {
  }

  /** Capture is off: the stream is halted and coupled. */
  predicate Off(m: Cells) {
    !StreamRuns(m) && !StreamDecoupled(m)
  }

  /** It is on: the stream runs, decoupled if the driver knows of PPCTL. */
  predicate On(m: Cells, b: Board) {
    StreamRuns(m) && (StreamDecoupled(m) <==> b.pp)
  }

  lemma ProgramStageEffect(m: Cells, b: Board, k: CaptureInput)
    requires Off(m) && AllPolite(k.params)
    ensures var n := ProgramStage(m, b, k);
            !StreamRuns(n) && (StreamDecoupled(n) <==> b.pp && k.live)
  {
    ProgramEffect(m, b, k);
    PoliteKeeps(Landed(k.live, m, ProgramCapture(m, b, k)), k.params);
  }

  lemma RunStageEffect(m: Cells, b: Board, k: CaptureInput)
    requires !StreamRuns(m) && AllPolite(k.trig)
    ensures var n := RunStage(m, b, k);
            (StreamRuns(n) <==> k.afterParams) && (StreamDecoupled(n) <==> StreamDecoupled(m))
  {
    RunEffect(m, b);
    PoliteKeeps(Landed(k.afterParams, m, RunCapture(m, b)), k.trig);
  }

  /** After a start the stream runs exactly when RUN landed and no halt did, and is
      decoupled exactly when that landed and no recoupling did. */
  lemma StartEffect(m: Cells, b: Board, k: CaptureInput)
    requires Off(m) && AllPolite(k.params) && AllPolite(k.trig)
    ensures var n := CaptureOn(m, b, k);
            match k.ipc
            case ParamsTimeout => !StreamRuns(n) && (StreamDecoupled(n) <==> b.pp && k.live && !k.afterParams)
            case TrigTimeout => (StreamRuns(n) <==> k.afterParams && !k.afterTrig) &&
                                (StreamDecoupled(n) <==> b.pp && k.live && !k.afterTrig)
            case Answered => (StreamRuns(n) <==> k.afterParams) && (StreamDecoupled(n) <==> b.pp && k.live)
  {
    var m1 := ProgramStage(m, b, k);
    ProgramStageEffect(m, b, k);
    HaltEffect(m1, b);
    if !k.ipc.ParamsTimeout? {
      RunStageEffect(m1, b, k);
      HaltEffect(RunStage(m1, b, k), b);
      IpcLeavesStream(RunStage(m1, b, k));
    }
  }

  lemma IpcLeavesStream(m: Cells)
    ensures var n := SetBits(m, Hipcctl, {1});
            StreamRuns(n) == StreamRuns(m) && StreamDecoupled(n) == StreamDecoupled(m) && Rd(n, Adspic) == Rd(m, Adspic)
  {
  }

  /** The controller decodes where it matters: a start that succeeds must have set
      RUN and decoupled, one that times out must take back what it did. */
  predicate SoundStart(b: Board, k: CaptureInput) {
    match k.ipc
    case ParamsTimeout => b.pp && k.live ==> k.afterParams
    case TrigTimeout => k.afterParams || (b.pp && k.live) ==> k.afterTrig
    case Answered => k.afterParams && (b.pp ==> k.live)
  }

  predicate SoundStop(b: Board, s: StopInput) {
    s.live && (b.pp ==> s.afterWait)
  }

  /** So after a start capture is on if it succeeded and off if it timed out, both
      messages alike, if and only if the start is sound. */
  lemma StartIsExact(m: Cells, b: Board, k: CaptureInput)
    requires Off(m) && AllPolite(k.params) && AllPolite(k.trig)
    ensures var n := CaptureOn(m, b, k);
            (if k.ipc.Answered? then On(n, b) else Off(n)) <==> SoundStart(b, k)
  {
    StartEffect(m, b, k);
  }

  /** And after a stop it is off if and only if the stop is sound. */
  lemma StopIsExact(m: Cells, b: Board, s: StopInput)
    requires On(m, b) && AllPolite(s.wait)
    ensures Off(CaptureOff(m, b, s)) <==> SoundStop(b, s)
  {
    StopEffect(m, b, s);
  }

  lemma StartKeepsIrq(m: Cells, b: Board, k: CaptureInput)
    requires AllPolite(k.params) && AllPolite(k.trig)
    ensures Rd(CaptureOn(m, b, k), Adspic) == Rd(m, Adspic)
  {
    var m1 := ProgramStage(m, b, k);
    ProgramEffect(m, b, k);
    PoliteKeeps(Landed(k.live, m, ProgramCapture(m, b, k)), k.params);
    HaltEffect(m1, b);
    if !k.ipc.ParamsTimeout? {
      RunEffect(m1, b);
      PoliteKeeps(Landed(k.afterParams, m1, RunCapture(m1, b)), k.trig);
      HaltEffect(RunStage(m1, b, k), b);
      IpcLeavesStream(RunStage(m1, b, k));
    }
  }

  lemma HaltEffect(m: Cells, b: Board)
    ensures var n := HaltCapture(m, b);
            !StreamRuns(n) && (StreamDecoupled(n) <==> StreamDecoupled(m) && !b.pp) && Rd(n, Adspic) == Rd(m, Adspic)
    ensures StreamRuns(Couple(m, b)) == StreamRuns(m)
    ensures StreamDecoupled(Couple(m, b)) <==> StreamDecoupled(m) && !b.pp
    ensures Rd(Couple(m, b), Adspic) == Rd(m, Adspic)
  {
  }

  lemma RunEffect(m: Cells, b: Board)
    ensures var n := RunCapture(m, b);
            StreamRuns(n) && StreamDecoupled(n) == StreamDecoupled(m) && Rd(n, Adspic) == Rd(m, Adspic)
  {
  }

  lemma StopEffect(m: Cells, b: Board, s: StopInput)
    requires AllPolite(s.wait)
    ensures var n := CaptureOff(m, b, s);
            (StreamRuns(n) <==> StreamRuns(m) && !s.live) &&
            (StreamDecoupled(n) <==> StreamDecoupled(m) && !(b.pp && s.afterWait)) &&
            Rd(n, Adspic) == Rd(m, Adspic)
  {
    PoliteKeeps(Landed(s.live, m, StopStream(m)), s.wait);
  }

  // ---------- what capture runs on ----------

  lemma PoliteLeavesStream(m: Cells, ws: seq<AppleWrite>, r: Reg)
    requires AllPolite(ws) && OfStream(r, CAP)
    ensures Rd(Interfere(m, ws), r) == Rd(m, r)
  {
    PoliteReplaces(ws, r);
    ForcedWithinReplaced(ws, r);
    Effect(m, ws, r);
  }

  /** A start that succeeds leaves the stream on the driver's ring, in the driver's
      format, under its own tag, and able to raise no interrupt. */
  lemma StartPrograms(m: Cells, b: Board, k: CaptureInput)
    requires AllPolite(k.params) && AllPolite(k.trig) && k.ipc.Answered? && k.live && k.afterParams
    ensures var n := CaptureOn(m, b, k);
            Rd(n, Bdpl(CAP)) == k.bdlLow && Rd(n, Bdpu(CAP)) == k.bdlHigh &&
            Rd(n, Cbl(CAP)) == k.ringSize && Rd(n, Lvi(CAP)) == k.lastEntry &&
            Rd(n, Fmt(CAP)) == {0, 6} && Rd(n, Ctl2(CAP)) == {4, 5, 6} &&
            Rd(n, Ctl0(CAP)) == {RUN}
  {
    ProgramPrograms(m, b, k);
    StreamIsKept(m, b, k, Bdpl(CAP));
    StreamIsKept(m, b, k, Bdpu(CAP));
    StreamIsKept(m, b, k, Cbl(CAP));
    StreamIsKept(m, b, k, Lvi(CAP));
    StreamIsKept(m, b, k, Fmt(CAP));
    StreamIsKept(m, b, k, Ctl2(CAP));
    StreamIsKept(m, b, k, Ctl0(CAP));
  }

  /** Between its programming and the end of a start, the stream is only set running. */
  lemma StreamIsKept(m: Cells, b: Board, k: CaptureInput, r: Reg)
    requires AllPolite(k.params) && AllPolite(k.trig) && k.ipc.Answered? && k.live && k.afterParams
    requires OfStream(r, CAP) && !r.Sts?
    ensures var p := ProgramCapture(m, b, k);
            Rd(CaptureOn(m, b, k), r) == if r.Ctl0? then Rd(p, r) - STREAM_IRQS + {RUN} else Rd(p, r)
  {
    var p := ProgramCapture(m, b, k);
    var m1 := Interfere(p, k.params);
    PoliteLeavesStream(p, k.params, r);
    RunOnlyRuns(m1, b, r);
    PoliteLeavesStream(RunCapture(m1, b), k.trig, r);
  }

  lemma RunOnlyRuns(m: Cells, b: Board, r: Reg)
    requires OfStream(r, CAP) && !r.Sts?
    ensures Rd(RunCapture(m, b), r) == if r.Ctl0? then Rd(m, r) - STREAM_IRQS + {RUN} else Rd(m, r)
  {
  }

  lemma ProgramPrograms(m: Cells, b: Board, k: CaptureInput)
    ensures var p := ProgramCapture(m, b, k);
            Rd(p, Bdpl(CAP)) == k.bdlLow && Rd(p, Bdpu(CAP)) == k.bdlHigh &&
            Rd(p, Cbl(CAP)) == k.ringSize && Rd(p, Lvi(CAP)) == k.lastEntry &&
            Rd(p, Fmt(CAP)) == {0, 6} && Rd(p, Ctl2(CAP)) == {4, 5, 6} &&
            Rd(p, Ctl0(CAP)) == {}
  {
    var m1 := Decouple(ClearBits(m, Intctl, {CAP}), b);
    ResetStops(ResetStream(m1, CAP, k.ack1), CAP, k.ack2);
  }

  /** Another stream than 6, AppleHDA's first output for one, is untouched by a
      start, running or not. */
  lemma OutputIsKept(m: Cells, b: Board, k: CaptureInput, i: nat, r: Reg)
    requires OfStream(r, i) && i != CAP
    ensures Rd(CaptureOn(m, b, k), r) == Rd(Interfere(m, Waits(k)), r)
  {
    StartFootprint(m, b, k, r);
    var n, q := CaptureOn(m, b, k), Interfere(m, Waits(k));
    assert OwnBits(r) == {};
    assert Rd(n, r) - {} == Rd(n, r) && Rd(q, r) - {} == Rd(q, r);
  }

  lemma HaltKeepsTag(m: Cells, b: Board)
    ensures Rd(HaltCapture(m, b), Ctl2(CAP)) == Rd(Couple(m, b), Ctl2(CAP)) == Rd(m, Ctl2(CAP))
  {
  }

  lemma RunKeepsTag(p: Cells, b: Board, k: CaptureInput)
    requires k.trig == []
    ensures var m2 := RunStage(p, b, k);
            Rd(m2, Ctl2(CAP)) == Rd(HaltCapture(m2, b), Ctl2(CAP)) == Rd(p, Ctl2(CAP))
  {
    RunOnlyRuns(p, b, Ctl2(CAP));
    HaltKeepsTag(RunStage(p, b, k), b);
  }

  /** On stream 6 every start that programs the stream leaves its own tag behind. */
  lemma TagIsTaken(m: Cells, b: Board, k: CaptureInput)
    requires Waits(k) == [] && k.live
    ensures Rd(CaptureOn(m, b, k), Ctl2(CAP)) == {4, 5, 6}
  {
    var p := ProgramCapture(m, b, k);
    ProgramPrograms(m, b, k);
    assert k.params == [] && Interfere(p, k.params) == p;
    if k.ipc.ParamsTimeout? {
      HaltKeepsTag(p, b);
    } else {
      RunKeepsTag(p, b, k);
    }
  }

  /** The stream index of capture is fixed while AppleHDA's output is read from the
      controller: a start leaves that output alone, whatever it holds, exactly when
      the two differ. */
  lemma OutputIsDisjoint(b: Board, k: CaptureInput, i: nat)
    requires Waits(k) == [] && k.live
    ensures (forall m, r :: OfStream(r, i) ==> Rd(CaptureOn(m, b, k), r) == Rd(m, r)) <==> i != CAP
  {
    if i == CAP {
      TagIsTaken(map[], b, k);
      assert OfStream(Ctl2(CAP), i) && Rd(map[], Ctl2(CAP)) == {};
    } else {
      forall m, r | OfStream(r, i)
        ensures Rd(CaptureOn(m, b, k), r) == Rd(m, r)
      {
        OutputIsKept(m, b, k, i, r);
        assert Interfere(m, Waits(k)) == m;
      }
    }
  }

  // ---------- the capture bits of the shared registers ----------

  lemma ResetsShared(m: Cells, k: CaptureInput, r: Reg)
    requires !OfStream(r, CAP)
    ensures Rd(ResetStream(ResetStream(m, CAP, k.ack1), CAP, k.ack2), r) == Rd(m, r)
  {
    ResetFrame(m, CAP, k.ack1, r);
    ResetFrame(ResetStream(m, CAP, k.ack1), CAP, k.ack2, r);
  }

  lemma FirstWrites(m: Cells, b: Board)
    ensures var m1 := Decouple(ClearBits(m, Intctl, {CAP}), b);
            Rd(m1, Intctl) == Rd(m, Intctl) - {6} && Rd(m1, SpibEn) == Rd(m, SpibEn) &&
            Rd(m1, Hipcctl) == Rd(m, Hipcctl)
  {
  }

  lemma ProgramShared(m: Cells, b: Board, k: CaptureInput)
    ensures var p := ProgramCapture(m, b, k);
            Rd(p, Intctl) == Rd(m, Intctl) - {6} && Rd(p, SpibEn) == Rd(m, SpibEn) && Rd(p, Hipcctl) == Rd(m, Hipcctl)
  {
    var m1 := Decouple(ClearBits(m, Intctl, {CAP}), b);
    var m3 := ResetStream(ResetStream(m1, CAP, k.ack1), CAP, k.ack2);
    FirstWrites(m, b);
    ResetsShared(m1, k, Intctl);
    ResetsShared(m1, k, SpibEn);
    ResetsShared(m1, k, Hipcctl);
    RingShared(m3, b, k);
    assert ProgramCapture(m, b, k) == WriteFormat(LoadRing(m3, k), b);
  }

  lemma RingShared(m: Cells, b: Board, k: CaptureInput)
    ensures var n := WriteFormat(LoadRing(m, k), b);
            Rd(n, Intctl) == Rd(m, Intctl) && Rd(n, SpibEn) == Rd(m, SpibEn) && Rd(n, Hipcctl) == Rd(m, Hipcctl)
  {
  }

  lemma RunShared(m: Cells, b: Board)
    ensures var n := RunCapture(m, b);
            Rd(n, Intctl) == Rd(m, Intctl) &&
            Rd(n, SpibEn) == (if b.spib then Rd(m, SpibEn) - {6} else Rd(m, SpibEn)) &&
            Rd(n, Hipcctl) == Rd(m, Hipcctl) + {1} && Rd(n, Sts(CAP)) == Rd(m, Sts(CAP)) - {2, 3, 4}
    ensures var h := HaltCapture(m, b);
            Rd(h, Intctl) == Rd(m, Intctl) && Rd(h, SpibEn) == Rd(m, SpibEn) &&
            Rd(h, Sts(CAP)) == Rd(m, Sts(CAP)) - {2, 3, 4} &&
            Rd(Couple(m, b), Intctl) == Rd(m, Intctl) && Rd(Couple(m, b), SpibEn) == Rd(m, SpibEn)
  {
  }

  /** What a capture start leaves of its bit in INTCTL: nothing. It is set afterwards only if
      AppleHDA set it meanwhile. */
  lemma StartMasksStream(m: Cells, b: Board, k: CaptureInput)
    requires k.live
    ensures 6 in Rd(CaptureOn(m, b, k), Intctl) <==> 6 in Forced(Waits(k), Intctl)
  {
    var p := ProgramCapture(m, b, k);
    ProgramShared(m, b, k);
    Effect(p, k.params, Intctl);
    var m1 := ProgramStage(m, b, k);
    RunShared(m1, b);
    Effect(p, Waits(k), Intctl);
    if k.ipc.ParamsTimeout? {
      assert Waits(k) == k.params;
    } else {
      RunStageShared(m1, b, k);
      InterfereAppends(p, k.params, k.trig);
      InterfereIsLocal(Landed(k.afterParams, m1, RunCapture(m1, b)), m1, k.trig, Intctl);
    }
  }

  lemma RunStageShared(m: Cells, b: Board, k: CaptureInput)
    ensures Rd(Landed(k.afterParams, m, RunCapture(m, b)), Intctl) == Rd(m, Intctl)
    ensures var m2 := RunStage(m, b, k);
            Rd(HaltCapture(m2, b), Intctl) == Rd(m2, Intctl) == Rd(SetBits(m2, Hipcctl, {1}), Intctl)
  {
    RunShared(m, b);
    RunShared(RunStage(m, b, k), b);
  }

  /** A successful start takes its stream out of SPIB and acknowledges the DSP, and
      its stream starts without a stale status. */
  lemma StartReadiesStream(m: Cells, b: Board, k: CaptureInput)
    requires AllPolite(k.params) && AllPolite(k.trig) && k.ipc.Answered? && k.live && k.afterParams
    ensures var n := CaptureOn(m, b, k);
            1 in Rd(n, Hipcctl) && Rd(n, Sts(6)) * {2, 3, 4} == {} &&
            (b.spib ==> (6 in Rd(n, SpibEn) <==> 6 in Forced(k.trig, SpibEn)))
  {
    var m1 := ProgramStage(m, b, k);
    var q := RunCapture(m1, b);
    RunShared(m1, b);
    PoliteLeavesStream(q, k.trig, Sts(CAP));
    PoliteLeavesDsp(q, k.trig);
    Effect(q, k.trig, SpibEn);
  }

  lemma {:induction false} PoliteLeavesDsp(m: Cells, ws: seq<AppleWrite>)
    requires AllPolite(ws)
    ensures Rd(Interfere(m, ws), Hipcctl) == Rd(m, Hipcctl)
    decreases |ws|
  {
    if ws != [] {
      assert Polite(ws[0]);
      PoliteLeavesDsp(Apply(m, ws[0]), ws[1..]);
    }
  }

  lemma StopStreamClears(m: Cells)
    ensures var q := StopStream(m);
            Rd(q, Ctl0(6)) == Rd(m, Ctl0(6)) - {1, 2, 3, 4} && Rd(q, Sts(6)) == Rd(m, Sts(6)) - {2, 3, 4} &&
            1 in Rd(q, Hipcctl) && 6 !in Rd(q, Intctl)
  {
  }

  lemma StopStreamKeeps(m: Cells, r: Reg)
    requires OfStream(r, 6) && !r.Ctl0? && !r.Sts?
    ensures Rd(StopStream(m), r) == Rd(m, r)
  {
  }

  lemma CoupleKeeps(m: Cells, b: Board, r: Reg)
    requires r != Ppctl
    ensures Rd(Couple(m, b), r) == Rd(m, r)
  {
  }

  /** A stop whose writes land leaves no enable and no status behind: of the stream's
      control only what was no enable, in INTCTL nothing but what AppleHDA set
      meanwhile. */
  lemma StopClearsStream(m: Cells, b: Board, s: StopInput)
    requires s.live && AllPolite(s.wait)
    ensures var n := CaptureOff(m, b, s);
            Rd(n, Ctl0(6)) == Rd(m, Ctl0(6)) - {1, 2, 3, 4} && Rd(n, Sts(6)) * {2, 3, 4} == {} && 1 in Rd(n, Hipcctl) &&
            (6 in Rd(n, Intctl) <==> 6 in Forced(s.wait, Intctl))
  {
    var q := StopStream(m);
    var n := Interfere(q, s.wait);
    StopStreamClears(m);
    PoliteLeavesStream(q, s.wait, Ctl0(CAP));
    PoliteLeavesStream(q, s.wait, Sts(CAP));
    PoliteLeavesDsp(q, s.wait);
    Effect(q, s.wait, Intctl);
    CoupleKeeps(n, b, Ctl0(6));
    CoupleKeeps(n, b, Sts(6));
    CoupleKeeps(n, b, Hipcctl);
    CoupleKeeps(n, b, Intctl);
  }

  /** Ring, format and tag stay as they were. */
  lemma StopKeepsRing(m: Cells, b: Board, s: StopInput, r: Reg)
    requires AllPolite(s.wait) && OfStream(r, 6) && !r.Ctl0? && !r.Sts?
    ensures Rd(CaptureOff(m, b, s), r) == Rd(m, r)
  {
    var q := Landed(s.live, m, StopStream(m));
    StopStreamKeeps(m, r);
    PoliteLeavesStream(q, s.wait, r);
    CoupleKeeps(Interfere(q, s.wait), b, r);
  }
}
