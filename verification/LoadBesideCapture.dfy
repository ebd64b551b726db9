/** What a firmware load does to the idle capture stream and its PPCTL bit. */
module LoadBesideCapture {
  import opened RebuildControl
  import opened Registers
  import opened Loader
  import C = Capture

  predicate PoliteLoad(o: LoadInput) {
    C.AllPolite(o.check) && C.AllPolite(o.settle) && C.AllPolite(o.power) && C.AllPolite(o.rom) &&
    C.AllPolite(o.init) && C.AllPolite(o.enter) && C.AllPolite(o.ready) && C.AllPolite(o.topology)
  }

  lemma WritesArePolite(o: LoadInput)
    requires PoliteLoad(o)
    ensures C.AllPolite(Before(o)) && C.AllPolite(During(o)) && C.AllPolite(After(o))
    ensures C.AllPolite(Before(o) + During(o) + After(o)) && C.AllPolite(Before(o) + After(o))
  {
  }

  /** The load leaves an idle capture stream idle. The loader decouples its stream and
      the next one, so only a first output with index 5 or 6 can interfere: it does
      when PPCTL is not given back, and on index 6 also when noise with RUN in it
      comes back or the loader is left running. */
  predicate KeepsCapture(b: Board, o: LoadInput) {
    var i := Found(b, o).sIdx;
    && (i == C.CAP || i + 1 == C.CAP ==> !(b.pp && o.stillDecodes && !Returns(o)))
    && (i == C.CAP ==>
          if Returns(o) then o.stillDecodes || RUN !in Rd(o.noise, Ctl0(C.CAP))
          else !(HandsBackEarly(o) && o.afterInit))
  }

  lemma PrepareKeeps(m: Cells, o: LoadInput)
    requires PoliteLoad(o)
    ensures var p := Prepare(m, o);
            Rd(p, Ctl0(C.CAP)) == Rd(m, Ctl0(C.CAP)) && C.StreamDecoupled(p) == C.StreamDecoupled(m)
  {
    var a := Interfere(m, o.check);
    C.PoliteKeeps(m, o.check);
    if o.decodes {
      var q := Interfere(a, o.settle);
      C.PoliteKeeps(a, o.settle);
      C.PoliteKeeps(Landed(o.afterSettle, q, TouchShared(q, o.linkUp)), o.power);
    }
  }

  lemma UnmaskKeeps(m: Cells, o: LoadInput)
    requires PoliteLoad(o)
    ensures var n := UnmaskStage(m, o);
            C.StreamRuns(n) == C.StreamRuns(m) && C.StreamDecoupled(n) == C.StreamDecoupled(m)
  {
    C.PoliteKeeps(Landed(o.afterRom, m, EnableDspIrq(m)), o.init);
  }

  lemma RunKeeps(m: Cells, f: Board, o: LoadInput, s: Snapshot)
    requires PoliteLoad(o) && !o.afterEnter
    ensures var n := RunStage(m, f, o, s);
            C.StreamDecoupled(n) == C.StreamDecoupled(m) &&
            (f.sIdx == C.CAP ==> (C.StreamRuns(n) <==> C.StreamRuns(m) || o.afterInit))
  {
    C.PoliteKeeps(Landed(o.afterInit, m, RunLoader(m, f)), o.enter);
  }

  lemma ReadyKeeps(m: Cells, o: LoadInput)
    requires PoliteLoad(o)
    ensures var n := ReadyStage(m, o);
            C.StreamRuns(n) == C.StreamRuns(m) && C.StreamDecoupled(n) == C.StreamDecoupled(m)
  {
    var m5 := Interfere(m, o.ready);
    C.PoliteKeeps(m, o.ready);
    C.IpcLeavesStream(m5);
    C.PoliteKeeps(Landed(o.afterReady, m5, SetBits(m5, Hipcctl, {1})), o.topology);
  }

  lemma MaskKeeps(m: Cells)
    ensures C.StreamRuns(MaskDspIrq(m)) == C.StreamRuns(m)
    ensures C.StreamDecoupled(MaskDspIrq(m)) == C.StreamDecoupled(m)
  {
  }

  /** Without a hand-back, the load ends as its stages left it. */
  lemma DriveKeeps(p: Cells, f: Board, o: LoadInput)
    requires PoliteLoad(o) && !Returns(o)
    ensures var n := Cleanup(Drive(p, f, o), f, o.ackReturn, LiveAtCleanup(o));
            var m1 := BorrowStage(p, f, o);
            C.StreamDecoupled(n) == C.StreamDecoupled(m1) &&
            (f.sIdx == C.CAP ==> (C.StreamRuns(n) <==> C.StreamRuns(m1) || (HandsBackEarly(o) && o.afterInit)))
  {
    var m1, s := BorrowStage(p, f, o), TakeSnapshot(Seen(p, o), f);
    UnmaskKeeps(m1, o);
    if HandsBackEarly(o) {
      var m3 := RunStage(UnmaskStage(m1, o), f, o, s);
      RunKeeps(UnmaskStage(m1, o), f, o, s);
      ReadyKeeps(m3, o);
      MaskKeeps(ReadyStage(m3, o));
    }
  }

  lemma BorrowDecouples(p: Cells, f: Board, o: LoadInput)
    requires PoliteLoad(o) && C.Off(p)
    ensures var n := BorrowStage(p, f, o);
            (C.StreamDecoupled(n) <==> f.pp && o.stillDecodes && (f.sIdx == C.CAP || f.sIdx + 1 == C.CAP)) &&
            (f.sIdx == C.CAP ==> !C.StreamRuns(n))
  {
    var s := TakeSnapshot(Seen(p, o), f);
    var m0 := Decouple(p, f, s);
    ResetFrame(m0, f.sIdx, o.ackBorrow, Ppctl);
    C.ResetStops(m0, f.sIdx, o.ackBorrow);
    PointKeeps(ResetStream(m0, f.sIdx, o.ackBorrow), f, o);
    C.PoliteKeeps(Landed(o.stillDecodes, p, Program(p, f, s, o)), o.rom);
  }

  lemma PointKeeps(m: Cells, f: Board, o: LoadInput)
    ensures var n := PointAtFirmware(m, f, o);
            Rd(n, Ppctl) == Rd(m, Ppctl) && Rd(n, Ctl0(f.sIdx)) == Rd(m, Ctl0(f.sIdx))
  {
  }

  lemma DecoupledAfterLoad(m: Cells, b: Board, o: LoadInput)
    requires PoliteLoad(o) && C.Off(m) && ReachesBorrow(o)
    ensures var i := Found(b, o).sIdx;
            C.StreamDecoupled(Load(m, b, o, false)) <==>
            b.pp && o.stillDecodes && !Returns(o) && (i == C.CAP || i + 1 == C.CAP)
  {
    WritesArePolite(o);
    PrepareKeeps(m, o);
    if !Found(b, o).pp {
      LeftAlone(m, b, o, Ppctl);
      C.PoliteKeeps(m, Before(o) + During(o) + After(o));
    } else if Returns(o) {
      BorrowedBack(m, b, o, Ppctl);
      C.PoliteKeeps(m, Before(o) + After(o));
    } else {
      BorrowDecouples(Prepare(m, o), Found(b, o), o);
      DriveKeeps(Prepare(m, o), Found(b, o), o);
    }
  }

  lemma RunningAfterLoad(m: Cells, b: Board, o: LoadInput)
    requires PoliteLoad(o) && C.Off(m) && ReachesBorrow(o)
    ensures C.StreamRuns(Load(m, b, o, false)) <==>
            Found(b, o).sIdx == C.CAP &&
            (if Returns(o) then !o.stillDecodes && RUN in Rd(o.noise, Ctl0(C.CAP))
             else HandsBackEarly(o) && o.afterInit)
  {
    var r := Ctl0(C.CAP);
    WritesArePolite(o);
    PrepareKeeps(m, o);
    if Found(b, o).sIdx != C.CAP {
      LeftAlone(m, b, o, r);
      C.PoliteKeeps(m, Before(o) + During(o) + After(o));
    } else if Returns(o) {
      DriveGivesBack(Prepare(m, o), Found(b, o), o, r);
      C.PoliteKeeps(Seen(Prepare(m, o), o), After(o));
    } else {
      BorrowDecouples(Prepare(m, o), Found(b, o), o);
      DriveKeeps(Prepare(m, o), Found(b, o), o);
    }
  }

  /** Capture is still off after a load that borrows if and only if KeepsCapture says
      so; a load that does not borrow never touches it. */
  lemma LoadKeepsCapture(m: Cells, b: Board, o: LoadInput, bails: bool)
    requires PoliteLoad(o) && C.Off(m)
    ensures C.Off(Load(m, b, o, bails)) <==> (ReachesBorrow(o) && !bails ==> KeepsCapture(b, o))
  {
    if ReachesBorrow(o) && !bails {
      DecoupledAfterLoad(m, b, o);
      RunningAfterLoad(m, b, o);
    } else {
      PrepareKeeps(m, o);
      MaskKeeps(Prepare(m, o));
    }
  }

  /** On every board whose first output is neither 5 nor 6, capture needs nothing of
      the borrow: not even of one that is not sound. */
  lemma OtherBoardsKeepCapture(b: Board, o: LoadInput)
    requires b.sIdx != C.CAP && b.sIdx + 1 != C.CAP
    ensures KeepsCapture(b, o)
  {
  }
}
