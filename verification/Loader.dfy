/**
 The firmware load on the shared registers. The code loader needs AppleHDA's
 first output stream, so it borrows it: snapshot, use, give back, and never touch
 it again although the load goes on for seconds after the hand-back.
 */
module Loader {
  import opened RebuildControl
  import opened Registers

  /** What the driver learns while it loads, AppleHDA's writes during each wait
      included. `decodes` and `stillDecodes` are the two controller checks; after each
      wait the controller may have stopped decoding, or begun again. While it does
      not decode, writes go nowhere and reads return `noise`; what it says of its own
      streams then is all ones or all zeros. */
  datatype LoadInput = LoadInput(
    decodes: bool, linkUp: bool,
    afterSettle: bool, readsOnes: bool,
    payloadOk: bool, corePower: bool, fwAlloc: bool, bdlAlloc: bool,
    stillDecodes: bool, noise: Cells,
    afterRom: bool, afterInit: bool, afterEnter: bool, afterReady: bool, afterTopology: bool,
    romAck: bool, initDone: bool, entered: bool, parsed: bool, alive: bool,
    bdlLow: Word, bdlHigh: Word, payloadSize: Word, lastEntry: Word,
    ackBorrow: bool, ackReturn: bool,
    check: seq<AppleWrite>, settle: seq<AppleWrite>, power: seq<AppleWrite>,
    rom: seq<AppleWrite>, init: seq<AppleWrite>, enter: seq<AppleWrite>,
    ready: seq<AppleWrite>, topology: seq<AppleWrite>)

  datatype Snapshot = Snapshot(
    ppctl: Word, spibEn: Word, spibVal: Word,
    ctl0: Word, ctl1: Word, ctl2: Word, cbl: Word, lvi: Word, fmt: Word, bdpl: Word, bdpu: Word,
    valid: bool, restored: bool)

  const NO_SNAPSHOT: Snapshot := Snapshot({}, {}, {}, {}, {}, {}, {}, {}, {}, {}, {}, false, false)

  function TakeSnapshot(m: Cells, b: Board): Snapshot {
    Snapshot(if b.pp then Rd(m, Ppctl) else {},
             if b.spib then Rd(m, SpibEn) else {},
             if b.spib then Rd(m, SpibVal(b.sIdx)) else {},
             Rd(m, Ctl0(b.sIdx)), Rd(m, Ctl1(b.sIdx)), Rd(m, Ctl2(b.sIdx)),
             Rd(m, Cbl(b.sIdx)), Rd(m, Lvi(b.sIdx)), Rd(m, Fmt(b.sIdx)),
             Rd(m, Bdpl(b.sIdx)), Rd(m, Bdpu(b.sIdx)), true, false)
  }

  /** What a read of the registers at the borrow returns. */
  function Seen(m: Cells, o: LoadInput): Cells {
    if o.stillDecodes then m else o.noise
  }

  function RefillStream(m: Cells, i: nat, s: Snapshot): Cells {
    m[Bdpl(i) := s.bdpl][Bdpu(i) := s.bdpu][Cbl(i) := s.cbl][Lvi(i) := s.lvi][Fmt(i) := s.fmt]
     [Ctl0(i) := s.ctl0][Ctl1(i) := s.ctl1][Ctl2(i) := s.ctl2]
  }

  function Rewire(m: Cells, b: Board, s: Snapshot): Cells {
    var m1 := if b.spib then m[SpibVal(b.sIdx) := s.spibVal][SpibEn := s.spibEn] else m;
    if b.pp then m1[Ppctl := s.ppctl] else m1
  }

  /** Effective once: not without a snapshot, and not a second time. */
  function Restore(m: Cells, b: Board, s: Snapshot, ack: bool): Cells {
    if !s.valid || s.restored then m
    else Rewire(RefillStream(ResetStream(m, b.sIdx, ack), b.sIdx, s), b, s)
  }

  // ---------- the load, stage by stage ----------

  /** The driver's writes before the load proper: mode bit, wake status, one status byte. */
  function TouchShared(m: Cells, linkUp: bool): Cells {
    var m1 := SetBits(m, Em2, {14});
    ClearBits(if linkUp then m1[Wakests := {}] else m1, Sts(1), STATUS_BITS)
  }

  /** Up to the last look: the checked wait for the controller, the settle wait, and
      the writes after it, which nothing checks again. */
  function Prepare(m: Cells, o: LoadInput): Cells {
    var a := Interfere(m, o.check);
    if o.decodes then PrepareStage(Interfere(a, o.settle), o) else a
  }

  function PrepareStage(m: Cells, o: LoadInput): Cells {
    Interfere(Landed(o.afterSettle, m, TouchShared(m, o.linkUp)), o.power)
  }

  /** The board as this load finds it. It reads the stream counts right after the
      settle wait, unchecked: from a controller that is gone the first output seems to
      be stream 15, or 0. It walks the capabilities just before the last look: a
      controller that is gone shows none. */
  function Found(b: Board, o: LoadInput): Board {
    Board(if o.afterSettle then b.sIdx else if o.readsOnes then 15 else 0,
          b.pp && o.stillDecodes, b.spib && o.stillDecodes)
  }

  predicate ReachesBorrow(o: LoadInput) {
    o.decodes && o.payloadOk && o.corePower && o.fwAlloc && o.bdlAlloc
  }

  function Facts(m: Cells, b: Board, o: LoadInput): LoadFacts {
    LoadFacts(ReachesBorrow(o), OutputBusy(Prepare(m, o), b, o.stillDecodes),
              o.romAck && o.initDone && o.entered && o.parsed && o.alive)
  }

  function Decouple(m: Cells, b: Board, s: Snapshot): Cells {
    if b.pp then m[Ppctl := s.ppctl + {31, 30, b.sIdx, b.sIdx + 1}] else m
  }

  function PointAtFirmware(m: Cells, b: Board, o: LoadInput): Cells {
    var i := b.sIdx;
    var m1 := m[Bdpl(i) := o.bdlLow][Bdpu(i) := o.bdlHigh][Cbl(i) := o.payloadSize][Lvi(i) := o.lastEntry]
              [Fmt(i) := {6}][Ctl2(i) := {4}];
    if b.spib then SetBits(m1, SpibEn, {i})[SpibVal(i) := o.payloadSize] else m1
  }

  /** Decouples the stream, resets it and points it at the firmware. */
  function Program(m: Cells, b: Board, s: Snapshot, o: LoadInput): Cells {
    PointAtFirmware(ResetStream(Decouple(m, b, s), b.sIdx, o.ackBorrow), b, o)
  }

  function EnableDspIrq(m: Cells): Cells {
    SetBits(m[Hipcctl := {0, 1}], Adspic, {0})
  }

  function MaskDspIrq(m: Cells): Cells {
    m[Adspic := {}][Hipcctl := {}]
  }

  function RunLoader(m: Cells, b: Board): Cells {
    var m1 := ClearBits(m, Sts(b.sIdx), STATUS_BITS);
    m1[Ctl0(b.sIdx) := Rd(m1, Ctl0(b.sIdx)) - {IOCE} + {RUN}]
  }

  function StopLoader(m: Cells, b: Board): Cells {
    ClearBits(ClearBits(m, Ctl0(b.sIdx), {RUN, IOCE}), Sts(b.sIdx), STATUS_BITS)
  }

  datatype Driven = Driven(m: Cells, snap: Snapshot)

  /** The four stages of a borrow, each with the wait that ends it. */
  function BorrowStage(m: Cells, b: Board, o: LoadInput): Cells {
    Interfere(Landed(o.stillDecodes, m, Program(m, b, TakeSnapshot(Seen(m, o), b), o)), o.rom)
  }

  function UnmaskStage(m: Cells, o: LoadInput): Cells {
    Interfere(Landed(o.afterRom, m, EnableDspIrq(m)), o.init)
  }

  function RunStage(m: Cells, b: Board, o: LoadInput, s: Snapshot): Cells {
    var m3 := Interfere(Landed(o.afterInit, m, RunLoader(m, b)), o.enter);
    Landed(o.afterEnter, m3, Restore(StopLoader(m3, b), b, s, o.ackReturn))
  }

  function ReadyStage(m: Cells, o: LoadInput): Cells {
    var m5 := Interfere(m, o.ready);
    if !o.entered || !o.parsed then m5
    else Interfere(Landed(o.afterReady, m5, SetBits(m5, Hipcctl, {1})), o.topology)
  }

  /** From the snapshot to the cleanup label; the snapshot says whether it was given back. */
  function Drive(m: Cells, b: Board, o: LoadInput): Driven {
    var s := TakeSnapshot(Seen(m, o), b);
    var m1 := BorrowStage(m, b, o);
    if !o.romAck then Driven(m1, s)
    else
      var m2 := UnmaskStage(m1, o);
      if !o.initDone then Driven(m2, s)
      else Driven(ReadyStage(RunStage(m2, b, o, s), o), s.(restored := true))
  }

  /** Does the controller decode when a load that borrowed reaches its cleanup? */
  predicate LiveAtCleanup(o: LoadInput) {
    if !o.romAck then o.afterRom
    else if !o.initDone then o.afterInit
    else if !o.entered || !o.parsed then o.afterReady
    else o.afterTopology
  }

  function Cleanup(d: Driven, b: Board, ack: bool, live: bool): Cells {
    Landed(live, d.m, Restore(MaskDspIrq(d.m), b, d.snap, ack))
  }

  /** A whole load on board `b`; `bails` is the decision taken at the borrow. */
  function Load(m: Cells, b: Board, o: LoadInput, bails: bool): Cells {
    var p, f := Prepare(m, o), Found(b, o);
    if !ReachesBorrow(o) then p
    else if bails then Cleanup(Driven(p, NO_SNAPSHOT), f, o.ackReturn, o.stillDecodes)
    else Cleanup(Drive(p, f, o), f, o.ackReturn, LiveAtCleanup(o))
  }

  // ---------- the contract ----------

  // From here on `b` is a board as a load finds it, unless a load is made on it.

  /** The borrowed stream and the registers it is wired through. */
  predicate Borrowed(b: Board, r: Reg) {
    match r
    case Sts(_) => false
    case Ppctl => b.pp
    case SpibEn => b.spib
    case SpibVal(i) => b.spib && i == b.sIdx
    case _ => OfStream(r, b.sIdx)
  }

  /** The registers a load changes for good. */
  predicate Touched(b: Board, r: Reg) {
    r in {Em2, Wakests, Sts(1), Sts(b.sIdx), Adspic, Hipcctl}
  }

  predicate HandsBackEarly(o: LoadInput) {
    o.romAck && o.initDone
  }

  /** Does the hand-back land? It is the early one or, before that, the cleanup's. */
  predicate Returns(o: LoadInput) {
    if HandsBackEarly(o) then o.afterEnter else LiveAtCleanup(o)
  }

  /** The controller is gone from the borrow on, whenever the stream is written. */
  predicate StaysGone(o: LoadInput) {
    !o.stillDecodes && !Returns(o) && !(HandsBackEarly(o) && o.afterInit)
  }

  /** The controller decodes at the borrow and at the hand-back, or is gone throughout. */
  predicate SoundBorrow(o: LoadInput) {
    (o.stillDecodes && Returns(o)) || StaysGone(o)
  }

  /** AppleHDA's writes before the snapshot. */
  function Before(o: LoadInput): seq<AppleWrite> {
    o.check + (if o.decodes then o.settle + o.power else [])
  }

  /** AppleHDA's writes while the stream is borrowed. */
  function During(o: LoadInput): seq<AppleWrite> {
    o.rom + (if o.romAck then o.init + (if o.initDone then o.enter else []) else [])
  }

  /** AppleHDA's writes after the hand-back. */
  function After(o: LoadInput): seq<AppleWrite> {
    if HandsBackEarly(o) then o.ready + (if o.entered && o.parsed then o.topology else []) else []
  }

  lemma RefillGivesBack(m: Cells, n: Cells, b: Board, r: Reg)
    requires OfStream(r, b.sIdx) && !r.Sts?
    ensures Rd(RefillStream(m, b.sIdx, TakeSnapshot(n, b)), r) == Rd(n, r)
  {
  }

  lemma RewireGivesBack(m: Cells, n: Cells, b: Board, r: Reg)
    ensures Rd(Rewire(m, b, TakeSnapshot(n, b)), r) ==
            if Borrowed(b, r) && !OfStream(r, b.sIdx) then Rd(n, r) else Rd(m, r)
  {
  }

  lemma RestoreGivesBack(m: Cells, n: Cells, b: Board, ack: bool, r: Reg)
    requires Borrowed(b, r)
    ensures Rd(Restore(m, b, TakeSnapshot(n, b), ack), r) == Rd(n, r)
  {
    var m0 := ResetStream(m, b.sIdx, ack);
    RewireGivesBack(RefillStream(m0, b.sIdx, TakeSnapshot(n, b)), n, b, r);
    if OfStream(r, b.sIdx) {
      RefillGivesBack(m0, n, b, r);
    }
  }

  lemma RestoreFrame(m: Cells, b: Board, s: Snapshot, ack: bool, r: Reg)
    requires !Borrowed(b, r) && r != Sts(b.sIdx)
    ensures Rd(Restore(m, b, s, ack), r) == Rd(m, r)
  {
    ResetFrame(m, b.sIdx, ack, r);
  }

  lemma ProgramFrame(m: Cells, b: Board, s: Snapshot, o: LoadInput, r: Reg)
    requires !Borrowed(b, r) && !Touched(b, r)
    ensures Rd(Program(m, b, s, o), r) == Rd(m, r)
  {
    ResetFrame(Decouple(m, b, s), b.sIdx, o.ackBorrow, r);
  }

  lemma PrepareIsBefore(m: Cells, b: Board, o: LoadInput, r: Reg)
    requires !Touched(b, r)
    ensures Rd(Prepare(m, o), r) == Rd(Interfere(m, Before(o)), r)
  {
    var a := Interfere(m, o.check);
    if o.decodes {
      var q := Interfere(a, o.settle);
      StageFrame(o.afterSettle, q, TouchShared(q, o.linkUp), q, o.power, r);
      InterfereAppends(a, o.settle, o.power);
      InterfereAppends(m, o.check, o.settle + o.power);
    } else {
      assert o.check + [] == o.check;
    }
  }

  /** Which of AppleHDA's writes last: on the borrowed registers those made while
      the stream was away are lost, everywhere else all of them count. */
  function Lasting(b: Board, o: LoadInput, bails: bool, r: Reg): seq<AppleWrite> {
    if !ReachesBorrow(o) || bails then Before(o)
    else if Borrowed(b, r) && o.stillDecodes then Before(o) + After(o)
    else Before(o) + During(o) + After(o)
  }

  /** Registers between borrow and cleanup that only AppleHDA writes: those that are
      not borrowed and, when the controller is gone throughout, all. */
  predicate Left(b: Board, o: LoadInput, r: Reg) {
    !Touched(b, r) && (Borrowed(b, r) ==> StaysGone(o))
  }

  /** A stage whose writes do not land, or leave `r` alone. */
  lemma StageFrame(live: bool, m: Cells, n: Cells, q: Cells, ws: seq<AppleWrite>, r: Reg)
    requires Rd(m, r) == Rd(q, r) && (live ==> Rd(n, r) == Rd(m, r))
    ensures Rd(Interfere(Landed(live, m, n), ws), r) == Rd(Interfere(q, ws), r)
  {
    InterfereIsLocal(Landed(live, m, n), q, ws, r);
  }

  lemma DriveFrame(p: Cells, b: Board, o: LoadInput, r: Reg)
    requires Left(b, o, r)
    ensures Rd(Drive(p, b, o).m, r) == Rd(Interfere(p, During(o) + After(o)), r)
  {
    var s := TakeSnapshot(Seen(p, o), b);
    var m1 := BorrowStage(p, b, o);
    if o.stillDecodes {
      ProgramFrame(p, b, s, o, r);
    }
    StageFrame(o.stillDecodes, p, Program(p, b, s, o), p, o.rom, r);
    InterfereAppends(p, During(o), After(o));
    InterfereAppends(p, o.rom, o.init + (if o.initDone then o.enter else []));
    if !o.romAck {
      assert o.rom + [] == o.rom && During(o) + [] == During(o);
    } else {
      var q1 := Interfere(p, o.rom);
      StageFrame(o.afterRom, m1, EnableDspIrq(m1), q1, o.init, r);
      InterfereAppends(q1, o.init, if o.initDone then o.enter else []);
      if !o.initDone {
        assert o.init + [] == o.init && During(o) + [] == During(o);
      } else {
        RunFrame(UnmaskStage(m1, o), Interfere(q1, o.init), b, o, s, r);
        ReadyFrame(RunStage(UnmaskStage(m1, o), b, o, s), Interfere(Interfere(q1, o.init), o.enter), o, r);
      }
    }
  }

  lemma RunFrame(m: Cells, q: Cells, b: Board, o: LoadInput, s: Snapshot, r: Reg)
    requires Left(b, o, r) && HandsBackEarly(o) && Rd(m, r) == Rd(q, r)
    ensures Rd(RunStage(m, b, o, s), r) == Rd(Interfere(q, o.enter), r)
  {
    var m3 := Interfere(Landed(o.afterInit, m, RunLoader(m, b)), o.enter);
    StageFrame(o.afterInit, m, RunLoader(m, b), q, o.enter, r);
    if o.afterEnter {
      RestoreFrame(StopLoader(m3, b), b, s, o.ackReturn, r);
    }
  }

  /** Nothing is written to the stream after the hand-back but by AppleHDA. */
  lemma ReadyFrame(m: Cells, q: Cells, o: LoadInput, r: Reg)
    requires HandsBackEarly(o) && r != Hipcctl && Rd(m, r) == Rd(q, r)
    ensures Rd(ReadyStage(m, o), r) == Rd(Interfere(q, After(o)), r)
  {
    var m5 := Interfere(m, o.ready);
    InterfereIsLocal(m, q, o.ready, r);
    if !o.entered || !o.parsed {
      assert o.ready + [] == o.ready;
    } else {
      StageFrame(o.afterReady, m5, SetBits(m5, Hipcctl, {1}), Interfere(q, o.ready), o.topology, r);
      InterfereAppends(q, o.ready, o.topology);
    }
  }

  /** A hand-back that lands leaves what was seen at the borrow, and from then on
      only AppleHDA writes. */
  lemma EarlyHandBack(p: Cells, b: Board, o: LoadInput, r: Reg)
    requires Borrowed(b, r) && HandsBackEarly(o) && Returns(o)
    ensures Rd(Drive(p, b, o).m, r) == Rd(Interfere(Seen(p, o), After(o)), r)
  {
    var s := TakeSnapshot(Seen(p, o), b);
    var m2 := UnmaskStage(BorrowStage(p, b, o), o);
    var m3 := Interfere(Landed(o.afterInit, m2, RunLoader(m2, b)), o.enter);
    RestoreGivesBack(StopLoader(m3, b), Seen(p, o), b, o.ackReturn, r);
    ReadyFrame(RunStage(m2, b, o, s), Seen(p, o), o, r);
  }

  lemma SnapshotKept(p: Cells, b: Board, o: LoadInput)
    ensures Drive(p, b, o).snap == TakeSnapshot(Seen(p, o), b).(restored := HandsBackEarly(o))
  {
  }

  lemma MaskFrame(m: Cells, r: Reg)
    requires r != Adspic && r != Hipcctl
    ensures Rd(MaskDspIrq(m), r) == Rd(m, r)
  {
  }

  /** The borrowed registers come back as they were seen, plus what AppleHDA wrote since. */
  lemma DriveGivesBack(p: Cells, b: Board, o: LoadInput, r: Reg)
    requires Borrowed(b, r) && Returns(o)
    ensures Rd(Cleanup(Drive(p, b, o), b, o.ackReturn, LiveAtCleanup(o)), r) ==
            Rd(Interfere(Seen(p, o), After(o)), r)
  {
    var d := Drive(p, b, o);
    MaskFrame(d.m, r);
    SnapshotKept(p, b, o);
    if HandsBackEarly(o) {
      EarlyHandBack(p, b, o, r);
    } else {
      RestoreGivesBack(MaskDspIrq(d.m), Seen(p, o), b, o.ackReturn, r);
    }
  }

  lemma LoadFrame(p: Cells, b: Board, o: LoadInput, r: Reg)
    requires Left(b, o, r)
    ensures Rd(Cleanup(Drive(p, b, o), b, o.ackReturn, LiveAtCleanup(o)), r) ==
            Rd(Interfere(p, During(o) + After(o)), r)
  {
    var d := Drive(p, b, o);
    DriveFrame(p, b, o, r);
    MaskFrame(d.m, r);
    SnapshotKept(p, b, o);
    if !Borrowed(b, r) {
      RestoreFrame(MaskDspIrq(d.m), b, d.snap, o.ackReturn, r);
    }
  }

  lemma BorrowedBack(m: Cells, b: Board, o: LoadInput, r: Reg)
    requires Borrowed(Found(b, o), r) && !Touched(Found(b, o), r) && ReachesBorrow(o) && o.stillDecodes && Returns(o)
    ensures Rd(Load(m, b, o, false), r) == Rd(Interfere(m, Before(o) + After(o)), r)
  {
    var p, q := Prepare(m, o), Interfere(m, Before(o));
    PrepareIsBefore(m, Found(b, o), o, r);
    DriveGivesBack(p, Found(b, o), o, r);
    InterfereIsLocal(p, q, After(o), r);
    InterfereAppends(m, Before(o), After(o));
  }

  lemma RestIsLocal(m: Cells, f: Board, o: LoadInput, r: Reg)
    requires !Touched(f, r)
    ensures Rd(Interfere(Prepare(m, o), During(o) + After(o)), r) ==
            Rd(Interfere(m, Before(o) + During(o) + After(o)), r)
  {
    var q := Interfere(m, Before(o));
    PrepareIsBefore(m, f, o, r);
    InterfereIsLocal(Prepare(m, o), q, During(o) + After(o), r);
    InterfereAppends(q, During(o), After(o));
    AllWrites(m, o);
  }

  lemma LeftAlone(m: Cells, b: Board, o: LoadInput, r: Reg)
    requires Left(Found(b, o), o, r) && ReachesBorrow(o)
    ensures Rd(Load(m, b, o, false), r) == Rd(Interfere(m, Before(o) + During(o) + After(o)), r)
  {
    var p, f := Prepare(m, o), Found(b, o);
    LoadFrame(p, f, o, r);
    RestIsLocal(m, f, o, r);
  }

  /** What a load needs to leave register `r` to AppleHDA: it is none of the six the
      load owns and, if it is borrowed, it is borrowed soundly. PPCTL and the SPIB
      registers are borrowed only where the last look finds the controller, so all
      they need is that it is there again for the hand-back. */
  predicate Spares(b: Board, o: LoadInput, bails: bool, r: Reg) {
    var f := Found(b, o);
    !Touched(f, r) && (Borrowed(f, r) && ReachesBorrow(o) && !bails ==> SoundBorrow(o))
  }

  /** For every exit of the load and whatever AppleHDA does meanwhile: such a
      register ends exactly as AppleHDA's lasting writes leave it. */
  lemma HandBack(m: Cells, b: Board, o: LoadInput, bails: bool, r: Reg)
    requires Spares(b, o, bails, r)
    ensures Rd(Load(m, b, o, bails), r) == Rd(Interfere(m, Lasting(Found(b, o), o, bails, r)), r)
  {
    if !ReachesBorrow(o) || bails {
      PrepareIsBefore(m, Found(b, o), o, r);
      MaskFrame(Prepare(m, o), r);
    } else if Borrowed(Found(b, o), r) && o.stillDecodes {
      BorrowedBack(m, b, o, r);
    } else {
      LeftAlone(m, b, o, r);
    }
  }

  /** PPCTL and the SPIB registers need no more than this. */
  lemma SharedAreSpared(b: Board, o: LoadInput, bails: bool, r: Reg)
    requires r == Ppctl || r == SpibEn || r.SpibVal?
    requires ReachesBorrow(o) && !bails && o.stillDecodes ==> Returns(o)
    ensures Spares(b, o, bails, r)
  {
  }

  // ---------- a controller that does not decode ----------

  /** Borrowed from a controller that is gone and handed back to one that is there, a
      register of the stream ends as the noise read at the borrow says. */
  lemma NoiseComesBack(m: Cells, b: Board, o: LoadInput, r: Reg)
    requires ReachesBorrow(o) && !o.stillDecodes && Returns(o) && Borrowed(Found(b, o), r)
    ensures OfStream(r, Found(b, o).sIdx)
    ensures Rd(Load(m, b, o, false), r) == Rd(Interfere(o.noise, After(o)), r)
  {
    DriveGivesBack(Prepare(m, o), Found(b, o), o, r);
  }

  /** AppleHDA writes nothing at all. */
  predicate Silent(o: LoadInput) {
    o.check == o.settle == o.power == o.rom == o.init == o.enter == o.ready == o.topology == []
  }

  lemma SilentPrepare(m: Cells, b: Board, o: LoadInput, r: Reg)
    requires Silent(o) && !Touched(b, r)
    ensures Rd(Prepare(m, o), r) == Rd(m, r) && Interfere(m, Lasting(b, o, false, r)) == m
  {
    PrepareIsBefore(m, b, o, r);
  }

  /** Does the load spoil register `r` of the board state `m`? */
  predicate Spoils(m: Cells, b: Board, o: LoadInput, r: Reg) {
    Borrowed(Found(b, o), r) && !Touched(Found(b, o), r) && Rd(Load(m, b, o, false), r) != Rd(m, r)
  }

  /** A borrow that is not sound harms some board state: noise comes back, the
      firmware's pointers stay, or the loader is left running. */
  lemma UnsoundBorrowHarms(b: Board, o: LoadInput) returns (m: Cells, r: Reg)
    requires ReachesBorrow(o) && Silent(o) && !SoundBorrow(o)
    ensures Spoils(m, b, o, r)
    ensures Facts(m, b, o).atBorrow.Quiet? || Facts(m, b, o).atBorrow.NotDecoding?
  {
    var i := Found(b, o).sIdx;
    if o.stillDecodes {
      m, r := map[], Ctl2(i);
      FirmwareHarms(b, o);
      EmptyBoardIsQuiet(b, o);
    } else if Returns(o) {
      r := Ctl0(i);
      m := NoiseHarms(b, o);
    } else {
      m, r := map[], Ctl0(i);
      LoaderHarms(m, b, o);
    }
  }

  lemma NoiseHarms(b: Board, o: LoadInput) returns (m: Cells)
    requires ReachesBorrow(o) && Silent(o) && !o.stillDecodes && Returns(o)
    ensures Spoils(m, b, o, Ctl0(Found(b, o).sIdx))
  {
    var r := Ctl0(Found(b, o).sIdx);
    m := map[r := if RUN in Rd(o.noise, r) then {} else {RUN}];
    NoiseComesBack(m, b, o, r);
    assert Interfere(o.noise, After(o)) == o.noise;
    assert RUN in Rd(m, r) <==> RUN !in Rd(o.noise, r);
  }

  lemma EmptyBoardIsQuiet(b: Board, o: LoadInput)
    requires Silent(o) && o.stillDecodes
    ensures Facts(map[], b, o).atBorrow.Quiet?
  {
    SilentPrepare(map[], b, o, Ctl0(b.sIdx));
    SilentPrepare(map[], b, o, Cbl(b.sIdx));
    SilentPrepare(map[], b, o, Bdpl(b.sIdx));
    SilentPrepare(map[], b, o, Bdpu(b.sIdx));
  }

  lemma FirmwareStays(p: Cells, f: Board, o: LoadInput)
    requires Silent(o) && o.stillDecodes && !Returns(o)
    ensures Rd(Cleanup(Drive(p, f, o), f, o.ackReturn, LiveAtCleanup(o)), Ctl2(f.sIdx)) == {4}
  {
    SnapshotKept(p, f, o);
  }

  lemma LoaderStays(p: Cells, f: Board, o: LoadInput)
    requires Silent(o) && !o.stillDecodes && !Returns(o) && HandsBackEarly(o) && o.afterInit
    ensures RUN in Rd(Cleanup(Drive(p, f, o), f, o.ackReturn, LiveAtCleanup(o)), Ctl0(f.sIdx))
  {
    SnapshotKept(p, f, o);
  }

  lemma DriveSpoils(m: Cells, b: Board, o: LoadInput, r: Reg)
    requires ReachesBorrow(o) && Borrowed(Found(b, o), r) && !Touched(Found(b, o), r)
    requires var f := Found(b, o);
             Rd(Cleanup(Drive(Prepare(m, o), f, o), f, o.ackReturn, LiveAtCleanup(o)), r) != Rd(m, r)
    ensures Spoils(m, b, o, r)
  {
  }

  lemma FirmwareHarms(b: Board, o: LoadInput)
    requires ReachesBorrow(o) && Silent(o) && o.stillDecodes && !Returns(o)
    ensures Spoils(map[], b, o, Ctl2(Found(b, o).sIdx))
  {
    FirmwareStays(Prepare(map[], o), Found(b, o), o);
    assert Rd(map[], Ctl2(Found(b, o).sIdx)) != {4};
    DriveSpoils(map[], b, o, Ctl2(Found(b, o).sIdx));
  }

  lemma LoaderHarms(m: Cells, b: Board, o: LoadInput)
    requires ReachesBorrow(o) && Silent(o) && !o.stillDecodes && !Returns(o) && HandsBackEarly(o) && o.afterInit
    requires RUN !in Rd(m, Ctl0(Found(b, o).sIdx))
    ensures Spoils(m, b, o, Ctl0(Found(b, o).sIdx))
  {
    LoaderStays(Prepare(m, o), Found(b, o), o);
    DriveSpoils(m, b, o, Ctl0(Found(b, o).sIdx));
  }

  /** So the condition is exact: with AppleHDA silent, a load that borrows gives every
      borrowed register back whatever it held, if and only if the borrow is sound. */
  lemma HandBackIsExact(b: Board, o: LoadInput)
    requires ReachesBorrow(o) && Silent(o)
    ensures (forall m, r :: Borrowed(Found(b, o), r) && !Touched(Found(b, o), r) ==>
                              Rd(Load(m, b, o, false), r) == Rd(m, r)) <==>
            SoundBorrow(o)
  {
    if SoundBorrow(o) {
      forall m, r | Borrowed(Found(b, o), r) && !Touched(Found(b, o), r)
        ensures Rd(Load(m, b, o, false), r) == Rd(m, r)
      {
        HandBack(m, b, o, false, r);
        SilentPrepare(m, Found(b, o), o, r);
      }
    } else {
      var m, r := UnsoundBorrowHarms(b, o);
    }
  }

  lemma PpctlStays(p: Cells, f: Board, o: LoadInput)
    requires Silent(o) && f.pp && o.stillDecodes && !Returns(o)
    ensures 30 in Rd(Cleanup(Drive(p, f, o), f, o.ackReturn, LiveAtCleanup(o)), Ppctl)
  {
    SnapshotKept(p, f, o);
    ResetFrame(Decouple(p, f, TakeSnapshot(p, f)), f.sIdx, o.ackBorrow, Ppctl);
  }

  /** PPCTL comes back from every board state if and only if, where the last look
      finds the controller, the hand-back finds it too. */
  lemma PpctlComesBack(b: Board, o: LoadInput)
    requires ReachesBorrow(o) && Silent(o) && b.pp
    ensures (forall m :: Rd(Load(m, b, o, false), Ppctl) == Rd(m, Ppctl)) <==> (o.stillDecodes ==> Returns(o))
  {
    if o.stillDecodes ==> Returns(o) {
      forall m
        ensures Rd(Load(m, b, o, false), Ppctl) == Rd(m, Ppctl)
      {
        SharedAreSpared(b, o, false, Ppctl);
        HandBack(m, b, o, false, Ppctl);
        SilentPrepare(m, Found(b, o), o, Ppctl);
      }
    } else {
      var m: Cells := map[];
      PpctlStays(Prepare(m, o), Found(b, o), o);
      assert 30 in Rd(Load(m, b, o, false), Ppctl) && 30 !in Rd(m, Ppctl);
    }
  }

  // ---------- which stream is borrowed ----------

  /** The stream read at the borrow is the one the last look looked at. */
  predicate RightStream(b: Board, o: LoadInput) {
    o.afterSettle || b.sIdx == (if o.readsOnes then 15 else 0)
  }

  /** The last look keeps running streams from being borrowed exactly in loads whose
      settle wait ends on a decoding controller, or which misread the index right. */
  lemma LookGuardsTheBorrow(c: Control, b: Board, o: LoadInput)
    requires Silent(o) && o.stillDecodes
    ensures (forall m :: !Bails(c, Facts(m, b, o).atBorrow) ==>
                           RUN !in TakeSnapshot(Prepare(m, o), Found(b, o)).ctl0) <==>
            RightStream(b, o)
  {
    var i := Found(b, o).sIdx;
    if !RightStream(b, o) {
      var m := map[Ctl0(i) := {RUN}];
      SilentPrepare(m, b, o, Ctl0(b.sIdx));
      SilentPrepare(m, b, o, Cbl(b.sIdx));
      SilentPrepare(m, b, o, Bdpl(b.sIdx));
      SilentPrepare(m, b, o, Bdpu(b.sIdx));
      SilentPrepare(m, b, o, Ctl0(i));
      assert Facts(m, b, o).atBorrow.Quiet? && !Bails(c, Facts(m, b, o).atBorrow);
      assert RUN in TakeSnapshot(Prepare(m, o), Found(b, o)).ctl0;
    }
  }

  // ---------- what a borrow costs ----------

  /** A borrowed register ends as AppleHDA alone would have left it if and only if
      every bit it changed during the borrow, or that was misread at the borrow, is
      written again after the hand-back. */
  lemma BorrowLoses(m: Cells, b: Board, o: LoadInput, r: Reg)
    requires Borrowed(Found(b, o), r) && !Touched(Found(b, o), r) && ReachesBorrow(o) && Returns(o)
    ensures var p := Interfere(m, Before(o));
            Rd(Load(m, b, o, false), r) == Rd(Interfere(m, Before(o) + During(o) + After(o)), r) <==>
            Rd(Seen(p, o), r) - Replaced(After(o), r) == Rd(Interfere(p, During(o)), r) - Replaced(After(o), r)
  {
    var p := Interfere(m, Before(o));
    var q := Prepare(m, o);
    PrepareIsBefore(m, Found(b, o), o, r);
    DriveGivesBack(q, Found(b, o), o, r);
    assert Rd(Load(m, b, o, false), r) == Rd(Interfere(Seen(q, o), After(o)), r);
    InterfereIsLocal(Seen(q, o), Seen(p, o), After(o), r);
    AllWrites(m, o);
    DifferenceSurvives(Seen(p, o), Interfere(p, During(o)), After(o), r);
  }

  lemma AllWrites(m: Cells, o: LoadInput)
    ensures Interfere(m, Before(o) + During(o) + After(o)) ==
            Interfere(Interfere(Interfere(m, Before(o)), During(o)), After(o))
  {
    InterfereAppends(m, Before(o), During(o));
    InterfereAppends(m, Before(o) + During(o), After(o));
  }

  /** Why the snapshot remembers that it was given back: a second restore would
      undo exactly what AppleHDA changed since the first, unless it goes nowhere. */
  lemma SecondRestoreUndoes(p: Cells, b: Board, o: LoadInput, r: Reg)
    requires Borrowed(b, r) && HandsBackEarly(o) && Returns(o)
    ensures var d := Drive(p, b, o);
            var again := d.(snap := d.snap.(restored := false));
            d.snap.restored &&
            (Rd(Cleanup(again, b, o.ackReturn, LiveAtCleanup(o)), r) ==
             Rd(Cleanup(d, b, o.ackReturn, LiveAtCleanup(o)), r) <==>
             !LiveAtCleanup(o) || Rd(Interfere(Seen(p, o), After(o)), r) == Rd(Seen(p, o), r))
  {
    var d := Drive(p, b, o);
    SnapshotKept(p, b, o);
    EarlyHandBack(p, b, o, r);
    DriveGivesBack(p, b, o, r);
    MaskFrame(d.m, r);
    RestoreGivesBack(MaskDspIrq(d.m), Seen(p, o), b, o.ackReturn, r);
  }

  // ---------- the DSP's interrupt ----------

  /** Does the cleanup of this load land? */
  predicate CleansUp(o: LoadInput, bails: bool) {
    ReachesBorrow(o) && (if bails then o.stillDecodes else LiveAtCleanup(o))
  }

  /** Did the load switch the interrupt on? */
  predicate Unmasks(o: LoadInput, bails: bool) {
    ReachesBorrow(o) && !bails && o.romAck && o.afterRom
  }

  /** A cleanup that lands masks the DSP's interrupt, whatever it was before; any
      other exit leaves it as it was, or switched on. */
  lemma InterruptMasked(m: Cells, b: Board, o: LoadInput, bails: bool)
    requires forall w :: w in Before(o) + During(o) + After(o) ==> w.reg != Adspic
    ensures Rd(Load(m, b, o, bails), Adspic) ==
            if CleansUp(o, bails) then {} else if Unmasks(o, bails) then Rd(m, Adspic) + {0} else Rd(m, Adspic)
  {
    var p := Prepare(m, o);
    var all := Before(o) + During(o) + After(o);
    assert forall w :: w in Before(o) || w in During(o) || w in After(o) ==> w in all;
    var f := Found(b, o);
    PrepareInterrupt(m, o);
    if CleansUp(o, bails) {
      CleanupMasks(if bails then Driven(p, NO_SNAPSHOT) else Drive(p, f, o), f, o.ackReturn);
    } else if ReachesBorrow(o) && !bails {
      DriveInterrupt(p, f, o);
    }
  }

  lemma PrepareInterrupt(m: Cells, o: LoadInput)
    requires forall w :: w in Before(o) ==> w.reg != Adspic
    ensures Rd(Prepare(m, o), Adspic) == Rd(m, Adspic)
  {
    var a := Interfere(m, o.check);
    UntouchedByApple(m, o.check, Adspic);
    if o.decodes {
      var q := Interfere(a, o.settle);
      UntouchedByApple(a, o.settle, Adspic);
      UntouchedByApple(Landed(o.afterSettle, q, TouchShared(q, o.linkUp)), o.power, Adspic);
    }
  }

  lemma DriveInterrupt(p: Cells, b: Board, o: LoadInput)
    requires forall w :: w in During(o) ==> w.reg != Adspic
    requires forall w :: w in After(o) ==> w.reg != Adspic
    ensures Rd(Drive(p, b, o).m, Adspic) == if o.romAck && o.afterRom then Rd(p, Adspic) + {0} else Rd(p, Adspic)
  {
    var m1 := BorrowStage(p, b, o);
    BorrowInterrupt(p, b, o);
    if o.romAck {
      UntouchedByApple(Landed(o.afterRom, m1, EnableDspIrq(m1)), o.init, Adspic);
      if o.initDone {
        var s := TakeSnapshot(Seen(p, o), b);
        var m2 := UnmaskStage(m1, o);
        RunInterrupt(m2, b, o, s);
        ReadyFrame(RunStage(m2, b, o, s), RunStage(m2, b, o, s), o, Adspic);
        UntouchedByApple(RunStage(m2, b, o, s), After(o), Adspic);
      }
    }
  }

  lemma BorrowInterrupt(p: Cells, b: Board, o: LoadInput)
    requires forall w :: w in During(o) ==> w.reg != Adspic
    ensures Rd(BorrowStage(p, b, o), Adspic) == Rd(p, Adspic)
  {
    var s := TakeSnapshot(Seen(p, o), b);
    assert forall w :: w in o.rom ==> w in During(o);
    ResetFrame(Decouple(p, b, s), b.sIdx, o.ackBorrow, Adspic);
    assert Rd(Program(p, b, s, o), Adspic) == Rd(p, Adspic);
    UntouchedByApple(Landed(o.stillDecodes, p, Program(p, b, s, o)), o.rom, Adspic);
  }

  lemma RunInterrupt(m: Cells, b: Board, o: LoadInput, s: Snapshot)
    requires HandsBackEarly(o) && forall w :: w in During(o) ==> w.reg != Adspic
    ensures Rd(RunStage(m, b, o, s), Adspic) == Rd(m, Adspic)
  {
    var m3 := Interfere(Landed(o.afterInit, m, RunLoader(m, b)), o.enter);
    assert forall w :: w in o.enter ==> w in During(o);
    UntouchedByApple(Landed(o.afterInit, m, RunLoader(m, b)), o.enter, Adspic);
    RestoreFrame(StopLoader(m3, b), b, s, o.ackReturn, Adspic);
  }

  lemma CleanupMasks(d: Driven, b: Board, ack: bool)
    ensures Rd(Cleanup(d, b, ack, true), Adspic) == {} && Rd(Cleanup(d, b, ack, true), Hipcctl) == {}
  {
    RestoreFrame(MaskDspIrq(d.m), b, d.snap, ack, Adspic);
    RestoreFrame(MaskDspIrq(d.m), b, d.snap, ack, Hipcctl);
  }

  lemma {:induction false} UntouchedByApple(m: Cells, ws: seq<AppleWrite>, r: Reg)
    requires forall w :: w in ws ==> w.reg != r
    ensures Rd(Interfere(m, ws), r) == Rd(m, r)
    decreases |ws|
  {
    if ws != [] {
      assert ws[0] in ws;
      UntouchedByApple(Apply(m, ws[0]), ws[1..], r);
    }
  }
}
