/**
 The latch machine that rebuilds the audio DSP, re-arms capture and resumes the
 kernel audio engine. Every handler runs under one command gate, so a run of the
 driver is a sequence of atomic steps. What a step learns from outside (the
 class of the output descriptor, the outcome of a firmware load, the answers to
 the capture messages, the family's view of the engine) is part of its event.
 */
module RebuildControl {

  const MAX_TRIES: nat := 12
  const WAIT_ROUNDS: nat := 20
  const MAX_EPISODES: nat := 3
  const RESUME_MAX_TRIES: nat := 3
  const TICKS_PER_ROUND: nat := 3

  /** What the driver can tell of AppleHDA's first output descriptor. */
  datatype Busy = NotDecoding | Quiet | Running | Programmed

  /** How far the two messages of a capture start got. */
  datatype StartIpc = ParamsTimeout | TrigTimeout | Answered

  datatype Ret = Success | NotReady | Timeout | TryAgain

  datatype EngineState = Stopped | Active | Paused | Resumed

  /** The audio family's record of the engine when the driver asks for it, and
      whether the family sends a resume request back while a start drains a pause. */
  datatype Family = Family(state: EngineState, clients: nat, pauses: nat, echoes: bool)

  datatype EngineView = EngineView(published: bool, asleep: bool, hasEngine: bool, family: Family)

  /** What the tick's jack branch would find: a changed jack, and a playback that restarts. */
  datatype Jack = Jack(moved: bool, restarts: bool)

  const NO_ENGINE: EngineView := EngineView(false, false, false, Family(Stopped, 0, 0, false))
  const JACK_STILL: Jack := Jack(false, false)

  /** One firmware load as the latches see it: did it get to the borrow, what was
      the descriptor's class at that instant, and does the firmware come up? */
  datatype LoadFacts = LoadFacts(reachesBorrow: bool, atBorrow: Busy, boots: bool)

  /** The capture session: `demand` is the latch for a session nobody serves yet. */
  datatype Session = Session(ready: bool, playing: bool, capturing: bool, demand: bool)

  /** The rebuild rounds with their three budgets: tries, borrow patience, episodes. */
  datatype Rebuild = Rebuild(pending: bool, tries: nat, divider: nat, waits: nat, episodes: nat, hot: bool)

  /** The deferred engine restart and the engine's own running flag. */
  datatype Resume = Resume(pending: bool, tries: nat, sleepImminent: bool, engineRunning: bool)

  datatype Setup = Setup(strict: bool, mapped: bool, rings: bool, i2cMapped: bool, sleptOnce: bool)

  datatype Control = Control(cap: Session, retry: Rebuild, resume: Resume, setup: Setup)

  datatype Started = Started(c: Control, ret: Ret)

  datatype Loaded = Loaded(c: Control, up: bool)

  datatype Event =
    | Tick(st: Busy, load: LoadFacts, rearm: StartIpc, view: EngineView, resume: StartIpc, jack: Jack)
    | ClientStart(ipc: StartIpc)
    | ClientStop(answered: bool)
    | EngineStart(ipc: StartIpc)
    | EngineStop(answered: bool)
    | EngineResume
    | WillSleep
    | WakeNotice
    | Sleep
    | Wake(remapped: bool, heldSession: bool)
    | PlaybackRequest
    | Foreign

  // ---------- recovery and the capture session ----------

  /** A fresh set of rounds: no try spent, full borrow patience. */
  function Armed(episodes: nat, hot: bool): Rebuild {
    Rebuild(true, 0, 0, 0, episodes, hot)
  }

  /** Declares the DSP dead and hands it to the retry rounds, three times at most. */
  function ScheduleRecovery(c: Control): Control {
    var n := c.retry.episodes + 1;
    if !c.setup.mapped then c
    else if n > MAX_EPISODES then c.(retry := c.retry.(episodes := n))
    else c.(cap := c.cap.(ready := false), retry := Armed(n, true))
  }

  /** A refused start is a demand: it is latched, and it re-arms a rebuild that gave up. */
  function RefuseStart(c: Control): Control {
    c.(cap := c.cap.(demand := true),
       retry := if !c.retry.pending && c.setup.mapped then Armed(0, true) else c.retry)
  }

  function StartCapture(c: Control, ipc: StartIpc): Started {
    if !c.cap.ready || !c.setup.rings then Started(RefuseStart(c), NotReady)
    else if c.cap.capturing then Started(c, Success)
    else if ipc.Answered? then
      Started(c.(cap := c.cap.(capturing := true), retry := c.retry.(episodes := 0)), Success)
    else Started(ScheduleRecovery(c.(cap := c.cap.(demand := true))), Timeout)
  }

  function StopCapture(c: Control, answered: bool): Control {
    var d := c.(cap := c.cap.(demand := false));
    if !c.cap.capturing then d
    else
      var r := if answered then d else ScheduleRecovery(d);
      r.(cap := r.cap.(capturing := false))
  }

  // ---------- the kernel audio engine ----------

  /** An engine start that fails must not leave the demand latch set. */
  function EngineStartCapture(c: Control, ipc: StartIpc): Started {
    var s := StartCapture(c, ipc);
    if s.ret.Success? then s else Started(s.c.(cap := s.c.cap.(demand := false)), s.ret)
  }

  function PerformEngineStart(c: Control, ipc: StartIpc): Started {
    var s := EngineStartCapture(c, ipc);
    if s.ret.Success? then Started(s.c.(resume := s.c.resume.(engineRunning := true)), Success) else s
  }

  function PerformEngineStop(c: Control, answered: bool): Control {
    StopCapture(c.(resume := c.resume.(engineRunning := false)), answered)
  }

  /** The family gives back one pause level; the engine is Resumed after the last. */
  function Drain(f: Family): Family {
    if f.pauses <= 1 then f.(state := Resumed, pauses := 0) else f.(pauses := f.pauses - 1)
  }

  function RequestResume(c: Control): Control {
    c.(resume := c.resume.(pending := true, tries := 0))
  }

  function CompleteResume(c: Control, f: Family, ipc: StartIpc): Started {
    if f.state.Active? || f.clients == 0 then Started(c, Success)
    else
      var g := if f.state.Paused? then Drain(f) else f;
      if g.state.Paused? then Started(if f.echoes then RequestResume(c) else c, TryAgain)
      else PerformEngineStart(c, ipc)
  }

  predicate ResumeReady(c: Control, v: EngineView) {
    c.resume.pending && c.cap.ready && !c.retry.pending && !c.resume.sleepImminent && v.published && !v.asleep
  }

  /** Does a deferred resume get as far as starting the engine? */
  predicate StartsEngine(c: Control, v: EngineView) {
    ResumeReady(c, v) && v.hasEngine && !v.family.state.Active? && v.family.clients > 0 &&
    !(v.family.state.Paused? && Drain(v.family).state.Paused?)
  }

  function RunResume(c: Control, v: EngineView, ipc: StartIpc): Control {
    if !ResumeReady(c, v) then c
    else if !v.hasEngine then c.(resume := c.resume.(pending := false))
    else
      var s := CompleteResume(c, v.family, ipc);
      s.c.(resume := AfterResume(s.c.resume, s.ret, s.c.retry.episodes))
  }

  function AfterResume(r: Resume, ret: Ret, episodes: nat): Resume {
    if ret.Success? then r.(pending := false)
    else if r.tries + 1 >= RESUME_MAX_TRIES || episodes > MAX_EPISODES then
      r.(tries := r.tries + 1, pending := false)
    else r.(tries := r.tries + 1)
  }

  // ---------- the retry rounds ----------

  /** Is a programmed descriptor to be waited for at all? */
  predicate Patient(c: Control) {
    c.setup.strict || c.retry.hot
  }

  /** Must the borrow be put off? A running stream always, a programmed one while patience lasts. */
  predicate Bails(c: Control, st: Busy) {
    st.Running? || (st.Programmed? && Patient(c) && c.retry.waits <= WAIT_ROUNDS)
  }

  function LoadDsp(c: Control, l: LoadFacts): Loaded {
    if !l.reachesBorrow then Loaded(c, c.cap.ready)
    else if Bails(c, l.atBorrow) then Loaded(c.(retry := c.retry.(pending := true)), c.cap.ready)
    else if l.boots then Loaded(c.(cap := Session(true, false, false, c.cap.demand)), true)
    else Loaded(c, c.cap.ready)
  }

  function CountWaits(c: Control, st: Busy): Control {
    if !Patient(c) then c
    else if st.Programmed? then c.(retry := c.retry.(waits := c.retry.waits + 1))
    else if st.Quiet? then c.(retry := c.retry.(waits := 0))
    else c
  }

  /** Does the round try a load? `c` is the state after CountWaits. */
  predicate Attempts(c: Control, st: Busy) {
    !st.NotDecoding? && !Bails(c, st)
  }

  function CountTry(c: Control): Control {
    c.(retry := c.retry.(tries := c.retry.tries + 1))
  }

  function ClearPending(c: Control): Control {
    c.(retry := c.retry.(pending := false))
  }

  function GiveUp(c: Control): Control {
    if c.retry.tries >= MAX_TRIES then ClearPending(c) else c
  }

  /** After a rebuild the latched session is started; only a success consumes the latch. */
  function Rearm(c: Control, ipc: StartIpc): Control {
    if !c.cap.demand then c
    else
      var s := StartCapture(c, ipc);
      if s.ret.Success? then s.c.(cap := s.c.cap.(demand := false)) else s.c
  }

  function Round(c: Control, st: Busy, load: LoadFacts, ipc: StartIpc): Control {
    var p := CountWaits(c, st);
    if !Attempts(p, st) then GiveUp(p)
    else
      var l := LoadDsp(CountTry(p), load);
      if l.up then Rearm(ClearPending(l.c), ipc) else GiveUp(l.c)
  }

  predicate RetryArmed(c: Control) {
    c.retry.pending && !c.cap.ready && c.setup.mapped
  }

  /** Is the coming tick the third one, which runs a round? */
  predicate RoundDue(c: Control) {
    RetryArmed(c) && c.retry.divider + 1 >= TICKS_PER_ROUND
  }

  function Retry(c: Control, st: Busy, load: LoadFacts, ipc: StartIpc): Control {
    if RoundDue(c) then Round(c.(retry := c.retry.(divider := 0)), st, load, ipc)
    else if RetryArmed(c) then c.(retry := c.retry.(divider := c.retry.divider + 1))
    else c
  }

  // ---------- the jack ----------

  /** The guard of the jack branch: a ready DSP and a mapped codec. */
  predicate PollsJack(c: Control) {
    c.cap.ready && c.setup.i2cMapped
  }

  /** A jack that moved during playback stops the output stream and starts it again. */
  predicate SwitchesOutput(c: Control, jack: Jack) {
    PollsJack(c) && c.cap.playing && jack.moved
  }

  function PollJack(c: Control, jack: Jack): Control {
    if SwitchesOutput(c, jack) then c.(cap := c.cap.(playing := jack.restarts)) else c
  }

  // ---------- power ----------

  function GoToSleep(c: Control): Control {
    c.(setup := c.setup.(sleptOnce := true), retry := c.retry.(pending := false),
       cap := Session(false, false, false, c.cap.demand || c.cap.capturing))
  }

  /** Does a wake rebuild? Not before the first sleep, and not while the DSP is up. */
  predicate Rebuilds(c: Control) {
    !c.cap.ready && c.setup.sleptOnce
  }

  function WakeUp(c: Control, remapped: bool, heldSession: bool): Control {
    var d := c.(resume := c.resume.(sleepImminent := false));
    if !Rebuilds(c) then d
    else if !remapped then d.(setup := c.setup.(mapped := false))
    else d.(setup := c.setup.(mapped := true), retry := Armed(0, false),
            resume := d.resume.(tries := 0, pending := c.resume.pending || heldSession))
  }

  // ---------- steps and runs ----------

  function Step(c: Control, e: Event): Control {
    match e
    case Tick(st, load, rearm, view, resume, jack) =>
      PollJack(RunResume(Retry(c, st, load, rearm), view, resume), jack)
    case ClientStart(ipc) => StartCapture(c, ipc).c
    case ClientStop(answered) => StopCapture(c, answered)
    case EngineStart(ipc) => PerformEngineStart(c, ipc).c
    case EngineStop(answered) => PerformEngineStop(c, answered)
    case EngineResume => RequestResume(c)
    case WillSleep => c.(resume := c.resume.(sleepImminent := true))
    case WakeNotice => c.(resume := c.resume.(sleepImminent := false))
    case Sleep => GoToSleep(c)
    case Wake(remapped, heldSession) => WakeUp(c, remapped, heldSession)
    case PlaybackRequest => c
    case Foreign => c
  }

  function Run(c: Control, events: seq<Event>): Control
    decreases |events|
  {
    if events == [] then c else Run(Step(c, events[0]), events[1..])
  }

  datatype Option<T> = None | Some(value: T)

  /** The latches before the driver has done anything. */
  function Boot(strict: bool, ringsAllocated: bool): Control {
    Control(Session(false, false, false, false), Rebuild(false, 0, 0, 0, 0, false),
            Resume(false, 0, false, false), Setup(strict, true, ringsAllocated, false, false))
  }

  /** Is the first load put off to the retry rounds, before anything is written? */
  predicate Defers(strict: bool, st: Busy) {
    st.Running? || (st.Programmed? && strict)
  }

  /** Loading the driver: None when start() fails, otherwise the first state of a run. */
  function Start(strict: bool, ringsAllocated: bool, st: Busy, load: LoadFacts): Option<Control> {
    var c := Boot(strict, ringsAllocated);
    if !ringsAllocated then None
    else if Defers(strict, st) then Some(c.(retry := Armed(0, true)))
    else
      var l := LoadDsp(c, load);
      if l.up || l.c.retry.pending then Some(l.c) else None
  }
}
