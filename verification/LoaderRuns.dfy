/**
 What the code loader runs on while it has the stream, when a load comes up, and
 what loads leave in the registers that are theirs.
 */
module LoaderRuns {
  import opened RebuildControl
  import opened Registers
  import opened Loader

  /** AppleHDA writes none of the registers the loader depends on. */
  predicate Leaves(ws: seq<AppleWrite>, f: Board) {
    forall i :: 0 <= i < |ws| ==>
      !OfStream(ws[i].reg, f.sIdx) && ws[i].reg != Ppctl && ws[i].reg != SpibEn &&
      ws[i].reg != SpibVal(f.sIdx) && ws[i].reg != Adspic && ws[i].reg != Hipcctl
  }

  predicate LoaderRegister(r: Reg, f: Board) {
    OfStream(r, f.sIdx) || r == Ppctl || r == SpibEn || r == SpibVal(f.sIdx) || r == Adspic || r == Hipcctl
  }

  lemma LeftAsItIs(m: Cells, ws: seq<AppleWrite>, f: Board, r: Reg)
    requires Leaves(ws, f) && LoaderRegister(r, f)
    ensures Rd(Interfere(m, ws), r) == Rd(m, r)
  {
    UntouchedByApple(m, ws, r);
  }

  /** The stream reset leaves nothing of the stream's former business enabled. */
  lemma ResetIsClean(m: Cells, i: nat, ack: bool)
    ensures var n := ResetStream(m, i, ack);
            Rd(n, Ctl0(i)) == {} && Rd(n, Ctl2(i)) == {} && Rd(n, Sts(i)) * {2, 3, 4} == {}
  {
  }

  /** The stream as the loader needs it: on the firmware's list, with its length, its
      last entry, the loader's format and tag, and under its own SPIB length. */
  predicate OnFirmware(m: Cells, f: Board, o: LoadInput) {
    && Rd(m, Bdpl(f.sIdx)) == o.bdlLow && Rd(m, Bdpu(f.sIdx)) == o.bdlHigh
    && Rd(m, Cbl(f.sIdx)) == o.payloadSize && Rd(m, Lvi(f.sIdx)) == o.lastEntry
    && Rd(m, Fmt(f.sIdx)) == {6} && Rd(m, Ctl2(f.sIdx)) == {4}
    && (f.spib ==> f.sIdx in Rd(m, SpibEn) && Rd(m, SpibVal(f.sIdx)) == o.payloadSize)
  }

  lemma ProgramIsOnFirmware(m: Cells, f: Board, s: Snapshot, o: LoadInput)
    ensures var n := Program(m, f, s, o);
            OnFirmware(n, f, o) && Rd(n, Ctl0(f.sIdx)) == {} && Rd(n, Adspic) == Rd(m, Adspic)
  {
    var m1 := ResetStream(Decouple(m, f, s), f.sIdx, o.ackBorrow);
    ResetIsClean(Decouple(m, f, s), f.sIdx, o.ackBorrow);
    ResetFrame(Decouple(m, f, s), f.sIdx, o.ackBorrow, Adspic);
    PointIsOnFirmware(m1, f, o);
  }

  lemma PointIsOnFirmware(m: Cells, f: Board, o: LoadInput)
    ensures var n := PointAtFirmware(m, f, o);
            OnFirmware(n, f, o) && Rd(n, Ctl0(f.sIdx)) == Rd(m, Ctl0(f.sIdx)) && Rd(n, Adspic) == Rd(m, Adspic)
    ensures Rd(PointAtFirmware(m, f, o), Ppctl) == Rd(m, Ppctl)
  {
  }

  /** Beside AppleHDA's bits, PPCTL gets the two global ones and the loader's two streams. */
  lemma ProgramDecouples(m: Cells, f: Board, o: LoadInput)
    requires f.pp
    ensures Rd(Program(m, f, TakeSnapshot(m, f), o), Ppctl) == Rd(m, Ppctl) + {31, 30, f.sIdx, f.sIdx + 1}
  {
    var m0 := Decouple(m, f, TakeSnapshot(m, f));
    ResetFrame(m0, f.sIdx, o.ackBorrow, Ppctl);
    PointIsOnFirmware(ResetStream(m0, f.sIdx, o.ackBorrow), f, o);
  }

  /** The other streams' SPIB enables stand as AppleHDA left them. */
  lemma ProgramKeepsSpib(m: Cells, f: Board, s: Snapshot, o: LoadInput)
    ensures Rd(Program(m, f, s, o), SpibEn) - {f.sIdx} == Rd(m, SpibEn) - {f.sIdx}
  {
    ResetFrame(Decouple(m, f, s), f.sIdx, o.ackBorrow, SpibEn);
    var m1 := ResetStream(Decouple(m, f, s), f.sIdx, o.ackBorrow);
    assert Rd(m1, SpibEn) == Rd(m, SpibEn);
  }

  /** The registers at the moment the loader's RUN lands. */
  function AtRun(p: Cells, f: Board, o: LoadInput): Cells {
    RunLoader(UnmaskStage(BorrowStage(p, f, o), o), f)
  }

  lemma BorrowIsOnFirmware(p: Cells, f: Board, o: LoadInput)
    requires o.stillDecodes && Leaves(o.rom, f)
    ensures var n := BorrowStage(p, f, o);
            OnFirmware(n, f, o) && Rd(n, Ctl0(f.sIdx)) == {} && Rd(n, Adspic) == Rd(p, Adspic) &&
            (f.pp ==> Rd(n, Ppctl) == Rd(p, Ppctl) + {31, 30, f.sIdx, f.sIdx + 1})
  {
    var m := Program(p, f, TakeSnapshot(p, f), o);
    ProgramIsOnFirmware(p, f, TakeSnapshot(p, f), o);
    if f.pp {
      ProgramDecouples(p, f, o);
    }
    forall r | LoaderRegister(r, f)
      ensures Rd(Interfere(m, o.rom), r) == Rd(m, r)
    {
      LeftAsItIs(m, o.rom, f, r);
    }
  }

  lemma UnmaskKeepsStream(m: Cells, f: Board, o: LoadInput)
    requires Leaves(o.init, f)
    ensures var n := UnmaskStage(m, o);
            (OnFirmware(m, f, o) ==> OnFirmware(n, f, o)) &&
            Rd(n, Ctl0(f.sIdx)) == Rd(m, Ctl0(f.sIdx)) && Rd(n, Ppctl) == Rd(m, Ppctl) &&
            (o.afterRom ==> 0 in Rd(n, Adspic) && Rd(n, Hipcctl) == {0, 1})
  {
    var q := Landed(o.afterRom, m, EnableDspIrq(m));
    forall r | LoaderRegister(r, f)
      ensures Rd(Interfere(q, o.init), r) == Rd(q, r)
    {
      LeftAsItIs(q, o.init, f, r);
    }
  }

  lemma RunOnlyRunsLoader(m: Cells, f: Board, o: LoadInput)
    ensures var n := RunLoader(m, f);
            (OnFirmware(m, f, o) ==> OnFirmware(n, f, o)) && Rd(n, Ppctl) == Rd(m, Ppctl) &&
            RUN in Rd(n, Ctl0(f.sIdx)) && IOCE !in Rd(n, Ctl0(f.sIdx)) && Rd(n, Sts(f.sIdx)) * {2, 3, 4} == {} &&
            Rd(n, Ctl0(f.sIdx)) - {RUN, IOCE} == Rd(m, Ctl0(f.sIdx)) - {RUN, IOCE} &&
            Rd(n, Adspic) == Rd(m, Adspic) && Rd(n, Hipcctl) == Rd(m, Hipcctl)
  {
  }

  /** When the loader runs, with decoding from the borrow on and AppleHDA away from its
      registers: its stream stands on the firmware and does nothing but run, PPCTL keeps
      AppleHDA's bits beside the loader's, and the DSP may answer. */
  lemma LoaderRunsOnFirmware(p: Cells, b: Board, o: LoadInput)
    requires o.stillDecodes && o.afterRom && Leaves(o.rom, Found(b, o)) && Leaves(o.init, Found(b, o))
    ensures var f, n := Found(b, o), AtRun(p, Found(b, o), o);
            OnFirmware(n, f, o) && Rd(n, Ctl0(f.sIdx)) == {RUN} && 0 in Rd(n, Adspic) && Rd(n, Hipcctl) == {0, 1} &&
            (b.pp ==> Rd(n, Ppctl) == Rd(p, Ppctl) + {31, 30, f.sIdx, f.sIdx + 1}) &&
            (b.spib ==> f.sIdx in Rd(n, SpibEn) && Rd(n, SpibVal(f.sIdx)) == o.payloadSize)
  {
    var f := Found(b, o);
    var m1 := BorrowStage(p, f, o);
    BorrowIsOnFirmware(p, f, o);
    UnmaskKeepsStream(m1, f, o);
    RunOnlyRunsLoader(UnmaskStage(m1, o), f, o);
  }

  /** The loader is halted before its stream goes back. */
  lemma LoaderIsHalted(m: Cells, f: Board)
    ensures var n := StopLoader(m, f);
            RUN !in Rd(n, Ctl0(f.sIdx)) && IOCE !in Rd(n, Ctl0(f.sIdx)) && Rd(n, Sts(f.sIdx)) * {2, 3, 4} == {}
  {
  }

  /** After the firmware's ready message the driver acknowledges it. */
  lemma ReadyIsAcknowledged(m: Cells, f: Board, o: LoadInput)
    requires o.entered && o.parsed && o.afterReady && Leaves(o.topology, f)
    ensures 1 in Rd(ReadyStage(m, o), Hipcctl)
  {
    var m5 := Interfere(m, o.ready);
    LeftAsItIs(SetBits(m5, Hipcctl, {1}), o.topology, f, Hipcctl);
  }

  /** When a load comes up: every stage succeeded and nothing held it back. */
  lemma LoadComesUp(c: Control, m: Cells, b: Board, o: LoadInput)
    requires !c.cap.ready
    ensures LoadDsp(c, Facts(m, b, o)).up <==>
            o.decodes && o.payloadOk && o.corePower && o.fwAlloc && o.bdlAlloc &&
            !Bails(c, OutputBusy(Prepare(m, o), b, o.stillDecodes)) &&
            o.romAck && o.initDone && o.entered && o.parsed && o.alive
  {
  }

  /** The writes before the load proper, to three registers and no other: the mode bit
      is set, one status byte cleared, the wake status cleared on a link that is up. */
  lemma SharedWrites(m: Cells, linkUp: bool, r: Reg)
    ensures var n := TouchShared(m, linkUp);
            Rd(n, Em2) == Rd(m, Em2) + {14} && Rd(n, Sts(1)) == Rd(m, Sts(1)) - {2, 3, 4} &&
            Rd(n, Wakests) == (if linkUp then {} else Rd(m, Wakests)) &&
            (r != Em2 && r != Sts(1) && r != Wakests ==> Rd(n, r) == Rd(m, r))
  {
  }

  /** The output's class, read off its registers. */
  lemma ClassOfOutput(m: Cells, b: Board)
    ensures OutputBusy(m, b, false) == NotDecoding
    ensures OutputBusy(m, b, true) == Running <==> 1 in Rd(m, Ctl0(b.sIdx))
    ensures OutputBusy(m, b, true) == Programmed <==>
            1 !in Rd(m, Ctl0(b.sIdx)) &&
            (Rd(m, Cbl(b.sIdx)) != {} || Rd(m, Bdpl(b.sIdx)) != {} || Rd(m, Bdpu(b.sIdx)) != {})
    ensures OutputBusy(m, b, true) == Quiet <==>
            1 !in Rd(m, Ctl0(b.sIdx)) && Rd(m, Cbl(b.sIdx)) == Rd(m, Bdpl(b.sIdx)) == Rd(m, Bdpu(b.sIdx)) == {}
  {
  }
}
