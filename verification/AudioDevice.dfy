/**
 The device object: its latches as fields, the controller's registers as a
 register file, and the gated handlers that update both in place. Every handler
 is proved to do what the latch machine and the register functions say.
 */
module AudioDevice {
  import RC = RebuildControl
  import opened Registers
  import L = Loader
  import C = Capture
  import W = SharedRuns

  /** The load's two wired buffers. */
  datatype Buffer = Firmware | List

  class Device {
    const board: Board
    const regs: RegisterFile

    var caps: Board
    var wired: set<Buffer>
    var cap: RC.Session
    var retry: RC.Rebuild
    var resume: RC.Resume
    var setup: RC.Setup

    function Ctl(): RC.Control
      reads this
    {
      RC.Control(cap, retry, resume, setup)
    }

    function View(): W.World
      reads this, regs
    {
      W.World(Ctl(), regs.cells, caps)
    }

    constructor (b: Board, strictBorrow: bool, ringsAllocated: bool, hw: RegisterFile)
      ensures board == b && regs == hw
      ensures Ctl() == RC.Boot(strictBorrow, ringsAllocated) && caps == W.UNKNOWN && wired == {}
    {
      board, regs := b, hw;
      caps, wired := W.UNKNOWN, {};
      cap := RC.Session(false, false, false, false);
      retry := RC.Rebuild(false, 0, 0, 0, 0, false);
      resume := RC.Resume(false, 0, false, false);
      setup := RC.Setup(strictBorrow, true, ringsAllocated, false, false);
    }

    // ---------- the firmware load ----------

    method SdRestore(f: Board, s: L.Snapshot, ack: bool) returns (t: L.Snapshot)
      modifies regs
      ensures regs.cells == L.Restore(old(regs.cells), f, s, ack)
      ensures t == if s.valid then s.(restored := true) else s
    {
      t := s;
      if !s.valid || s.restored {
        return;
      }
      t := s.(restored := true);
      var i := f.sIdx;
      regs.Reset(i, ack);
      regs.Write(Bdpl(i), s.bdpl);
      regs.Write(Bdpu(i), s.bdpu);
      regs.Write(Cbl(i), s.cbl);
      regs.Write(Lvi(i), s.lvi);
      regs.Write(Fmt(i), s.fmt);
      regs.Write(Ctl0(i), s.ctl0);
      regs.Write(Ctl1(i), s.ctl1);
      regs.Write(Ctl2(i), s.ctl2);
      if f.spib {
        regs.Write(SpibVal(i), s.spibVal);
        regs.Write(SpibEn, s.spibEn);
      }
      if f.pp {
        regs.Write(Ppctl, s.ppctl);
      }
    }

    method PointAtFirmware(f: Board, o: L.LoadInput)
      modifies regs
      ensures regs.cells == L.PointAtFirmware(old(regs.cells), f, o)
    {
      var i := f.sIdx;
      regs.Write(Bdpl(i), o.bdlLow);
      regs.Write(Bdpu(i), o.bdlHigh);
      regs.Write(Cbl(i), o.payloadSize);
      regs.Write(Lvi(i), o.lastEntry);
      regs.Write(Fmt(i), {6});
      regs.Write(Ctl2(i), {4});
      if f.spib {
        regs.Set(SpibEn, {i});
        regs.Write(SpibVal(i), o.payloadSize);
      }
    }

    method ProgramLoader(f: Board, s: L.Snapshot, o: L.LoadInput)
      modifies regs
      ensures regs.cells == L.Program(old(regs.cells), f, s, o)
    {
      var i := f.sIdx;
      if f.pp {
        regs.Write(Ppctl, s.ppctl + {31, 30, i, i + 1});
      }
      regs.Reset(i, o.ackBorrow);
      PointAtFirmware(f, o);
    }

    method BorrowStage(f: Board, o: L.LoadInput) returns (snap: L.Snapshot)
      modifies regs
      ensures regs.cells == L.BorrowStage(old(regs.cells), f, o)
      ensures snap == L.TakeSnapshot(L.Seen(old(regs.cells), o), f)
    {
      snap := L.TakeSnapshot(L.Seen(regs.cells, o), f);
      if o.stillDecodes {
        ProgramLoader(f, snap, o);
      }
      regs.Wait(o.rom);
    }

    method RunStage(f: Board, o: L.LoadInput, s: L.Snapshot) returns (t: L.Snapshot)
      requires s.valid && !s.restored
      modifies regs
      ensures regs.cells == L.RunStage(old(regs.cells), f, o, s) && t == s.(restored := true)
    {
      var i := f.sIdx;
      if o.afterInit {
        regs.Clear(Sts(i), STATUS_BITS);
        regs.Write(Ctl0(i), Rd(regs.cells, Ctl0(i)) - {IOCE} + {RUN});
      }
      regs.Wait(o.enter);
      t := s.(restored := true);
      if o.afterEnter {
        regs.Clear(Ctl0(i), {RUN, IOCE});
        regs.Clear(Sts(i), STATUS_BITS);
        t := SdRestore(f, s, o.ackReturn);
      }
    }

    /** The borrow itself, up to the cleanup label. Writes to a controller that does
        not decode go nowhere. */
    method DriveLoader(f: Board, o: L.LoadInput) returns (snap: L.Snapshot, booted: bool)
      modifies regs
      ensures var d := L.Drive(old(regs.cells), f, o); regs.cells == d.m && snap == d.snap
      ensures booted == (o.romAck && o.initDone && o.entered && o.parsed && o.alive)
    {
      booted := false;
      snap := BorrowStage(f, o);
      if !o.romAck {
        return;
      }
      if o.afterRom {
        regs.Write(Hipcctl, {0, 1});
        regs.Set(Adspic, {0});
      }
      regs.Wait(o.init);
      if !o.initDone {
        return;
      }
      snap := RunStage(f, o, snap);
      regs.Wait(o.ready);
      if !o.entered || !o.parsed {
        return;
      }
      if o.afterReady {
        regs.Set(Hipcctl, {1});
      }
      regs.Wait(o.topology);
      booted := o.alive;
    }

    /** The waits and shared writes before the load proper. */
    method PrepareLoad(o: L.LoadInput)
      modifies regs
      ensures regs.cells == L.Prepare(old(regs.cells), o)
    {
      regs.Wait(o.check);
      if !o.decodes {
        return;
      }
      regs.Wait(o.settle);
      if o.afterSettle {
        regs.Set(Em2, {14});
        if o.linkUp {
          regs.Write(Wakests, {});
        }
        regs.Clear(Sts(1), STATUS_BITS);
      }
      regs.Wait(o.power);
    }

    /** The cleanup label. */
    method FinishLoad(f: Board, snap: L.Snapshot, ack: bool, live: bool)
      modifies regs
      ensures regs.cells == L.Cleanup(L.Driven(old(regs.cells), snap), f, ack, live)
    {
      if !live {
        return;
      }
      regs.Write(Adspic, {});
      regs.Write(Hipcctl, {});
      var _ := SdRestore(f, snap, ack);
    }

    /** The capability walk and the last look at the output descriptor, and the borrow
        unless it bails. */
    method BorrowOrBail(f: Board, o: L.LoadInput) returns (snap: L.Snapshot, booted: bool, live: bool)
      modifies this`retry, regs
      ensures if RC.Bails(old(Ctl()), OutputBusy(old(regs.cells), board, o.stillDecodes))
              then Ctl() == old(Ctl()).(retry := old(retry).(pending := true)) &&
                   regs.cells == old(regs.cells) && snap == L.NO_SNAPSHOT && !booted &&
                   live == o.stillDecodes
              else Ctl() == old(Ctl()) &&
                   L.Driven(regs.cells, snap) == L.Drive(old(regs.cells), f, o) &&
                   booted == (o.romAck && o.initDone && o.entered && o.parsed && o.alive) &&
                   live == L.LiveAtCleanup(o)
    {
      var st := OutputBusy(regs.cells, board, o.stillDecodes);
      if st.Running? || (st.Programmed? && (setup.strict || retry.hot) && retry.waits <= RC.WAIT_ROUNDS) {
        retry := retry.(pending := true);
        return L.NO_SNAPSHOT, false, o.stillDecodes;
      }
      snap, booted := DriveLoader(f, o);
      live := L.LiveAtCleanup(o);
    }

    method Wire(x: Buffer, got: bool)
      modifies this`wired
      ensures wired == old(wired) + (if got then {x} else {})
    {
      if got {
        wired := wired + {x};
      }
    }

    /** Unwires a buffer; nothing happens if there is none. */
    method Unwire(x: Buffer)
      modifies this`wired
      ensures wired == old(wired) - {x}
    {
      wired := wired - {x};
    }

    /** A load: latches, registers, what it learns of the board, and no buffer stays wired. */
    method InitDSP(o: L.LoadInput) returns (up: bool)
      requires !cap.ready
      modifies this`cap, this`retry, this`caps, this`wired, regs
      ensures var a := W.Attempt(old(Ctl()), old(regs.cells), board, o);
              Ctl() == a.0.c && up == a.0.up && regs.cells == a.1 &&
              caps == (if up then L.Found(board, o) else old(caps))
      ensures old(wired) == {} ==> wired == {}
    {
      up := false;
      PrepareLoad(o);
      if !o.decodes || !o.payloadOk || !o.corePower {
        return;
      }
      Wire(Firmware, o.fwAlloc);
      if !o.fwAlloc {
        return;
      }
      Wire(List, o.bdlAlloc);
      if !o.bdlAlloc {
        Unwire(Firmware);
        return;
      }
      up := LoadWired(o);
      Unwire(List);
      Unwire(Firmware);
    }

    /** The load with both buffers at hand. */
    method LoadWired(o: L.LoadInput) returns (up: bool)
      requires !cap.ready && L.ReachesBorrow(o)
      modifies this`cap, this`retry, this`caps, regs
      ensures var q, p, f := old(Ctl()), old(regs.cells), L.Found(board, o);
              var st := OutputBusy(p, board, o.stillDecodes);
              var boots := o.romAck && o.initDone && o.entered && o.parsed && o.alive;
              var l := RC.LoadDsp(q, RC.LoadFacts(true, st, boots));
              Ctl() == l.c && up == l.up && caps == (if up then f else old(caps)) &&
              regs.cells == if RC.Bails(q, st)
                            then L.Cleanup(L.Driven(p, L.NO_SNAPSHOT), f, o.ackReturn, o.stillDecodes)
                            else L.Cleanup(L.Drive(p, f, o), f, o.ackReturn, L.LiveAtCleanup(o))
    {
      var f := L.Found(board, o);
      var snap, booted, live := BorrowOrBail(f, o);
      if booted {
        caps := f;
        cap := cap.(ready := true, playing := false, capturing := false);
      }
      FinishLoad(f, snap, o.ackReturn, live);
      up := cap.ready;
    }

    // ---------- recovery and capture ----------

    method ScheduleDspRecovery()
      modifies this`cap, this`retry
      ensures Ctl() == RC.ScheduleRecovery(old(Ctl()))
    {
      if !setup.mapped {
        return;
      }
      retry := retry.(episodes := retry.episodes + 1);
      if retry.episodes > RC.MAX_EPISODES {
        return;
      }
      cap := cap.(ready := false);
      retry := retry.(pending := true, tries := 0, divider := 0, hot := true, waits := 0);
    }

    method RecoupleCapture()
      modifies regs
      ensures regs.cells == C.Couple(old(regs.cells), caps)
    {
      if caps.pp {
        regs.Clear(Ppctl, {C.CAP});
      }
    }

    method DecoupleCapture()
      modifies regs
      ensures regs.cells == C.Decouple(old(regs.cells), caps)
    {
      if caps.pp {
        regs.Set(Ppctl, {C.CAP});
      }
    }

    method ProgramCaptureStream(k: C.CaptureInput)
      modifies regs
      ensures regs.cells == C.ProgramCapture(old(regs.cells), caps, k)
    {
      regs.Clear(Intctl, {C.CAP});
      DecoupleCapture();
      regs.Reset(C.CAP, k.ack1);
      regs.Reset(C.CAP, k.ack2);
      regs.Write(Bdpl(C.CAP), k.bdlLow);
      regs.Write(Bdpu(C.CAP), k.bdlHigh);
      regs.Write(Cbl(C.CAP), k.ringSize);
      regs.Write(Lvi(C.CAP), k.lastEntry);
      RecoupleCapture();
      regs.Write(Fmt(C.CAP), {0, 6});
      DecoupleCapture();
      regs.Write(Ctl2(C.CAP), {4, 5, 6});
      regs.Clear(Ctl0(C.CAP), STREAM_IRQS);
    }

    method StartDma()
      modifies regs
      ensures regs.cells == C.RunCapture(old(regs.cells), caps)
    {
      regs.Set(Hipcctl, {1});
      if caps.spib {
        regs.Clear(SpibEn, {C.CAP});
      }
      regs.Clear(Sts(C.CAP), STATUS_BITS);
      regs.Write(Ctl0(C.CAP), Rd(regs.cells, Ctl0(C.CAP)) - STREAM_IRQS + {RUN});
      regs.Set(Hipcctl, {1});
    }

    method HaltDma()
      modifies regs
      ensures regs.cells == C.HaltCapture(old(regs.cells), caps)
    {
      regs.Clear(Ctl0(C.CAP), {RUN});
      regs.Clear(Sts(C.CAP), STATUS_BITS);
      RecoupleCapture();
    }

    /** The register writes of a start, up to its outcome. */
    method RunCaptureStream(k: C.CaptureInput)
      modifies regs
      ensures regs.cells == C.CaptureOn(old(regs.cells), caps, k)
    {
      if k.live {
        ProgramCaptureStream(k);
      }
      regs.Wait(k.params);
      if k.ipc.ParamsTimeout? {
        if k.afterParams {
          RecoupleCapture();
        }
        return;
      }
      if k.afterParams {
        StartDma();
      }
      regs.Wait(k.trig);
      if !k.afterTrig {
        return;
      }
      if k.ipc.TrigTimeout? {
        HaltDma();
      } else {
        regs.Set(Hipcctl, {1});
      }
    }

    method StartCaptureGated(k: C.CaptureInput) returns (ret: RC.Ret)
      modifies this`cap, this`retry, regs
      ensures RC.StartCapture(old(Ctl()), k.ipc) == RC.Started(Ctl(), ret)
      ensures regs.cells == W.StartRegs(old(Ctl()), old(regs.cells), caps, k)
    {
      if !cap.ready || !setup.rings {
        cap := cap.(demand := true);
        if !retry.pending && setup.mapped {
          retry := retry.(pending := true, tries := 0, divider := 0, waits := 0, episodes := 0, hot := true);
        }
        return RC.NotReady;
      }
      if cap.capturing {
        return RC.Success;
      }
      RunCaptureStream(k);
      if !k.ipc.Answered? {
        cap := cap.(demand := true);
        ScheduleDspRecovery();
        return RC.Timeout;
      }
      cap := cap.(capturing := true);
      retry := retry.(episodes := 0);
      ret := RC.Success;
    }

    method StopCaptureGated(s: C.StopInput)
      modifies this`cap, this`retry, regs
      ensures Ctl() == RC.StopCapture(old(Ctl()), s.answered)
      ensures regs.cells == W.StopRegs(old(Ctl()), old(regs.cells), caps, s)
    {
      cap := cap.(demand := false);
      if !cap.capturing {
        return;
      }
      if s.live {
        regs.Clear(Ctl0(C.CAP), STREAM_IRQS + {RUN});
        regs.Clear(Sts(C.CAP), STATUS_BITS);
        regs.Clear(Intctl, {C.CAP});
        regs.Set(Hipcctl, {1});
      }
      regs.Wait(s.wait);
      if !s.answered {
        ScheduleDspRecovery();
      }
      if s.afterWait {
        RecoupleCapture();
      }
      cap := cap.(capturing := false);
    }

    // ---------- the kernel audio engine ----------

    method EngineStartCapture(k: C.CaptureInput) returns (ret: RC.Ret)
      modifies this`cap, this`retry, regs
      ensures RC.EngineStartCapture(old(Ctl()), k.ipc) == RC.Started(Ctl(), ret)
      ensures regs.cells == W.StartRegs(old(Ctl()), old(regs.cells), caps, k)
    {
      ret := StartCaptureGated(k);
      if ret != RC.Success {
        cap := cap.(demand := false);
      }
    }

    method PerformAudioEngineStart(k: C.CaptureInput) returns (ret: RC.Ret)
      modifies this`cap, this`retry, this`resume, regs
      ensures RC.PerformEngineStart(old(Ctl()), k.ipc) == RC.Started(Ctl(), ret)
      ensures regs.cells == W.StartRegs(old(Ctl()), old(regs.cells), caps, k)
    {
      ret := EngineStartCapture(k);
      if ret == RC.Success {
        resume := resume.(engineRunning := true);
      }
    }

    method PerformAudioEngineStop(s: C.StopInput)
      modifies this`cap, this`retry, this`resume, regs
      ensures Ctl() == RC.PerformEngineStop(old(Ctl()), s.answered)
      ensures regs.cells == W.StopRegs(old(Ctl()), old(regs.cells), caps, s)
    {
      resume := resume.(engineRunning := false);
      StopCaptureGated(s);
    }

    method RequestResume()
      modifies this`resume
      ensures Ctl() == RC.RequestResume(old(Ctl()))
    {
      resume := resume.(pending := true, tries := 0);
    }

    method CompleteDeferredResume(f: RC.Family, k: C.CaptureInput) returns (ret: RC.Ret)
      modifies this`cap, this`retry, this`resume, regs
      ensures RC.CompleteResume(old(Ctl()), f, k.ipc) == RC.Started(Ctl(), ret)
      ensures regs.cells ==
              if f.state.Active? || f.clients == 0 || (f.state.Paused? && RC.Drain(f).state.Paused?)
              then old(regs.cells)
              else W.StartRegs(old(Ctl()), old(regs.cells), caps, k)
    {
      if f.state.Active? || f.clients == 0 {
        return RC.Success;
      }
      var state := f.state;
      if state.Paused? {
        state := RC.Drain(f).state;
      }
      if state.Paused? {
        if f.echoes {
          RequestResume();
        }
        return RC.TryAgain;
      }
      ret := PerformAudioEngineStart(k);
    }

    method RunDeferredResume(v: RC.EngineView, k: C.CaptureInput)
      modifies this`cap, this`retry, this`resume, regs
      ensures Ctl() == RC.RunResume(old(Ctl()), v, k.ipc)
      ensures regs.cells == W.ResumeRegs(old(Ctl()), old(regs.cells), caps, v, k)
    {
      if !resume.pending || !cap.ready || retry.pending || resume.sleepImminent || !v.published || v.asleep {
        return;
      }
      if !v.hasEngine {
        resume := resume.(pending := false);
        return;
      }
      var ret := CompleteDeferredResume(v.family, k);
      if ret == RC.Success {
        resume := resume.(pending := false);
      } else {
        resume := resume.(tries := resume.tries + 1);
        if resume.tries >= RC.RESUME_MAX_TRIES || retry.episodes > RC.MAX_EPISODES {
          resume := resume.(pending := false);
        }
      }
    }

    // ---------- the 500 ms tick ----------

    /** The round's patience with a programmed output: is the descriptor busy? */
    method CountWaits(st: RC.Busy) returns (busy: bool)
      modifies this`retry
      ensures Ctl() == RC.CountWaits(old(Ctl()), st)
      ensures busy <==> RC.Bails(Ctl(), st)
    {
      busy := st == RC.Running;
      if !busy && st != RC.NotDecoding && (setup.strict || retry.hot) {
        if st == RC.Programmed {
          retry := retry.(waits := retry.waits + 1);
          busy := retry.waits <= RC.WAIT_ROUNDS;
        } else {
          retry := retry.(waits := 0);
        }
      }
    }

    method RearmCapture(k: C.CaptureInput)
      modifies this`cap, this`retry, regs
      ensures Ctl() == RC.Rearm(old(Ctl()), k.ipc)
      ensures regs.cells == W.RearmRegs(old(Ctl()), old(regs.cells), caps, k)
    {
      if cap.demand {
        var ret := StartCaptureGated(k);
        if ret == RC.Success {
          cap := cap.(demand := false);
        }
      }
    }

    /** A genuine attempt, and the only thing that costs a try. */
    method TryLoad(o: L.LoadInput) returns (up: bool)
      requires !cap.ready
      modifies this`cap, this`retry, this`caps, this`wired, regs
      ensures var a := W.Attempt(RC.CountTry(old(Ctl())), old(regs.cells), board, o);
              Ctl() == a.0.c && up == a.0.up && regs.cells == a.1 &&
              caps == (if up then L.Found(board, o) else old(caps))
      ensures old(wired) == {} ==> wired == {}
    {
      retry := retry.(tries := retry.tries + 1);
      up := InitDSP(o);
    }

    /** After a load that came up the session is started; else the rounds may be over. */
    method FinishRound(up: bool, k: C.CaptureInput)
      modifies this`cap, this`retry, regs
      ensures Ctl() == if up then RC.Rearm(RC.ClearPending(old(Ctl())), k.ipc) else RC.GiveUp(old(Ctl()))
      ensures regs.cells == if up then W.RearmRegs(RC.ClearPending(old(Ctl())), old(regs.cells), caps, k)
                            else old(regs.cells)
    {
      if up {
        retry := retry.(pending := false);
        RearmCapture(k);
      } else if retry.tries >= RC.MAX_TRIES {
        retry := retry.(pending := false);
      }
    }

    method RetryRound(decodes: bool, o: L.LoadInput, k: C.CaptureInput)
      requires !cap.ready
      modifies this`cap, this`retry, this`caps, this`wired, regs
      ensures Ctl() == RC.Round(old(Ctl()), OutputBusy(old(regs.cells), board, decodes),
                                L.Facts(old(regs.cells), board, o), k.ipc)
      ensures regs.cells == W.RoundRegs(old(Ctl()), old(regs.cells), board, decodes, o, k)
      ensures caps == (if W.RoundBoots(old(Ctl()), old(regs.cells), board, decodes, o) then L.Found(board, o)
                       else old(caps))
      ensures old(wired) == {} ==> wired == {}
    {
      var st := OutputBusy(regs.cells, board, decodes);
      var busy := CountWaits(st);
      var up := false;
      if st != RC.NotDecoding && !busy {
        up := TryLoad(o);
      }
      FinishRound(up, k);
    }

    /** The retry engine's share of a tick: every third one runs a round. */
    method RetryTick(decodes: bool, o: L.LoadInput, k: C.CaptureInput)
      modifies this`cap, this`retry, this`caps, this`wired, regs
      ensures Ctl() == RC.Retry(old(Ctl()), OutputBusy(old(regs.cells), board, decodes),
                                L.Facts(old(regs.cells), board, o), k.ipc)
      ensures regs.cells == W.RetryRegs(old(Ctl()), old(regs.cells), board, decodes, o, k)
      ensures caps == W.RetryCaps(old(View()), board, decodes, o)
      ensures old(wired) == {} ==> wired == {}
    {
      if retry.pending && !cap.ready && setup.mapped {
        retry := retry.(divider := retry.divider + 1);
        if retry.divider >= RC.TICKS_PER_ROUND {
          retry := retry.(divider := 0);
          RetryRound(decodes, o, k);
        }
      }
    }

    /** The tail of the tick, behind a codec that is never mapped. */
    method SwitchOutput(jack: RC.Jack)
      modifies this`cap, regs
      ensures Ctl() == RC.PollJack(old(Ctl()), jack)
      ensures regs.cells == W.JackRegs(old(Ctl()), old(regs.cells), caps, jack)
    {
      if !cap.ready || !setup.i2cMapped {
        return;
      }
      if cap.playing && jack.moved {
        regs.Clear(Ctl0(caps.sIdx), STREAM_IRQS + {RUN});
        cap := cap.(playing := jack.restarts);
      }
    }

    method JackPoll(decodes: bool, o: L.LoadInput, rearm: C.CaptureInput,
                    v: RC.EngineView, restart: C.CaptureInput, jack: RC.Jack)
      modifies this, regs
      ensures View() == W.StepWorld(old(View()), board, W.HwTick(decodes, o, rearm, v, restart, jack))
      ensures old(wired) == {} ==> wired == {}
    {
      RetryTick(decodes, o, rearm);
      RunDeferredResume(v, restart);
      SwitchOutput(jack);
    }

    // ---------- power ----------

    method SetPowerStateGated(on: bool, remapped: bool, heldSession: bool)
      modifies this`cap, this`retry, this`resume, this`setup
      ensures Ctl() == if on then RC.WakeUp(old(Ctl()), remapped, heldSession) else RC.GoToSleep(old(Ctl()))
    {
      if !on {
        setup := setup.(sleptOnce := true);
        retry := retry.(pending := false);
        cap := cap.(demand := cap.demand || cap.capturing);
        cap := cap.(ready := false, playing := false, capturing := false);
        return;
      }
      resume := resume.(sleepImminent := false);
      if !cap.ready && setup.sleptOnce {
        if !remapped {
          setup := setup.(mapped := false);
          return;
        }
        setup := setup.(mapped := true);
        retry := retry.(pending := true, tries := 0, divider := 0, episodes := 0, waits := 0, hot := false);
        resume := resume.(tries := 0);
        if !resume.pending && heldSession {
          resume := resume.(pending := true);
        }
      }
    }

    /** One atomic step under the command gate; AppleHDA's own steps included. */
    method Dispatch(e: W.HwEvent)
      modifies this, regs
      ensures View() == W.StepWorld(old(View()), board, e)
      ensures old(wired) == {} ==> wired == {}
    {
      match e
      case HwTick(decodes, load, rearm, view, restart, jack) => JackPoll(decodes, load, rearm, view, restart, jack);
      case HwClientStart(k) => var ret := StartCaptureGated(k);
      case HwClientStop(s) => StopCaptureGated(s);
      case HwEngineStart(k) => var ret := PerformAudioEngineStart(k);
      case HwEngineStop(s) => PerformAudioEngineStop(s);
      case HwEngineResume => RequestResume();
      case HwWillSleep => resume := resume.(sleepImminent := true);
      case HwWakeNotice => resume := resume.(sleepImminent := false);
      case HwSleep(afterD3) =>
        SetPowerStateGated(false, false, false);
        regs.cells := afterD3;
      case HwWake(remapped, heldSession) => SetPowerStateGated(true, remapped, heldSession);
      case HwPlaybackRequest =>
      case HwApple(ws) => regs.Wait(ws);
    }

    /** The first load, and the fresh rounds it asks for when it backs off. */
    method FirstLoad(o: L.LoadInput) returns (ok: bool)
      requires Ctl() == RC.Boot(setup.strict, setup.rings)
      modifies this`cap, this`retry, this`caps, this`wired, regs
      ensures var a := W.Attempt(old(Ctl()), old(regs.cells), board, o);
              ok == (a.0.up || a.0.c.retry.pending) && Ctl() == a.0.c && regs.cells == a.1 &&
              caps == (if a.0.up then L.Found(board, o) else old(caps))
    {
      var up := InitDSP(o);
      ok := up || retry.pending;
      if !up && retry.pending {
        retry := retry.(tries := 0, divider := 0, waits := 0);
      }
    }

    /** Loading the driver: whether start() succeeds, and where it leaves latches and registers. */
    method Start(decodes: bool, o: L.LoadInput) returns (ok: bool)
      requires Ctl() == RC.Boot(setup.strict, setup.rings) && caps == W.UNKNOWN
      modifies this`cap, this`retry, this`caps, this`wired, regs
      ensures var s := W.StartWorld(setup.strict, setup.rings, old(regs.cells), board, decodes, o);
              ok == s.Some? && (ok ==> View() == s.value)
    {
      if !setup.rings {
        return false;
      }
      var st := OutputBusy(regs.cells, board, decodes);
      if st == RC.Running || (st == RC.Programmed && setup.strict) {
        retry := retry.(pending := true, tries := 0, divider := 0, waits := 0, hot := true);
        return true;
      }
      W.FirstLoadStarts(setup.strict, regs.cells, board, decodes, o);
      ok := FirstLoad(o);
    }
  }
}
