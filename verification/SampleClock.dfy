/**
 The sample clock of the kernel audio engine. The hardware reports a position
 modulo the ring; the clock counts the wraps, stamps each one with a host time in
 nanoseconds, and keeps the time line going while the DSP is down.
 */
module SampleClock {
  import opened TimeLines

  const RATE: nat := 48000
  const RING_PERIOD: nat := RING * 1_000_000_000 / RATE
  const EDGE_SPIN: nat := 5_000
  const EDGE_DEADLINE: nat := 2_000_000
  const EDGE_WINDOW: nat := 20_000
  const MAX_SPINS: nat := EDGE_DEADLINE / EDGE_SPIN

  /** A position read: `frames` may reach the ring size at the very end of a lap. */
  datatype Reading = Invalid | At(frames: nat)

  function Frame(frames: nat): nat {
    if frames < RING then frames else 0
  }

  /** A position is a frame of the ring; what reaches the ring's size or goes past it
      counts as frame 0. */
  lemma PositionsInTheRing(frames: nat)
    ensures Frame(frames) < 16384 && (Frame(frames) == frames <==> frames < 16384)
    ensures frames >= 16384 ==> Frame(frames) == 0
  {
  }

  // ---------- catching the edge ----------

  /** One read of the spin, bracketed by two clock reads. */
  datatype EdgeRead = EdgeRead(tA: nat, reading: Reading, tB: nat)

  datatype Spin = Edge(pos: nat, time: nat, rejects: nat) | Lost(rejects: nat) | Missed(rejects: nat)

  /** Clock reads are ordered, and a pause takes at least as long as was asked. */
  ghost predicate WellTimed(start: nat, samples: nat -> EdgeRead) {
    && start <= samples(0).tA
    && (forall k: nat :: samples(k).tA <= samples(k).tB)
    && (forall k: nat :: samples(k).tB + EDGE_SPIN <= samples(k + 1).tA)
  }

  predicate Trusted(r: EdgeRead) {
    r.tB - r.tA <= EDGE_WINDOW
  }

  predicate Moved(r: EdgeRead, p0: nat) {
    r.reading.At? && Trusted(r) && Frame(r.reading.frames) != p0
  }

  /** A read after which the spin goes on. */
  predicate Idles(r: EdgeRead, p0: nat, start: nat) {
    r.reading.At? && !Moved(r, p0) && r.tB - start < EDGE_DEADLINE
  }

  function Rejects(samples: nat -> EdgeRead, n: nat): nat {
    if n == 0 then 0 else Rejects(samples, n - 1) + (if Trusted(samples(n - 1)) then 0 else 1)
  }

  /** What the spin answers when `samples(k)` is its last read. */
  function Outcome(samples: nat -> EdgeRead, k: nat, p0: nat): Spin {
    var r := samples(k);
    if r.reading.Invalid? then Lost(Rejects(samples, k))
    else if Moved(r, p0) then Edge(Frame(r.reading.frames), r.tB, Rejects(samples, k))
    else Missed(Rejects(samples, k + 1))
  }

  lemma {:induction false} SpinTakesTime(start: nat, samples: nat -> EdgeRead, k: nat)
    requires WellTimed(start, samples)
    ensures samples(k).tA >= start + k * EDGE_SPIN
  {
    if k > 0 {
      SpinTakesTime(start, samples, k - 1);
      assert samples(k - 1).tB + EDGE_SPIN <= samples(k - 1 + 1).tA;
    }
  }

  /** The read a spin stops at: the first from `k` on after which it does not go on. */
  ghost function StopsAt(samples: nat -> EdgeRead, p0: nat, start: nat, k: nat): (n: nat)
    requires WellTimed(start, samples) && k <= MAX_SPINS
    ensures k <= n <= MAX_SPINS && !Idles(samples(n), p0, start)
    ensures forall j :: k <= j < n ==> Idles(samples(j), p0, start)
    decreases MAX_SPINS - k
  {
    SpinTakesTime(start, samples, k);
    if Idles(samples(k), p0, start) then StopsAt(samples, p0, start, k + 1) else k
  }

  lemma FirstStop(samples: nat -> EdgeRead, p0: nat, start: nat, n: nat)
    requires WellTimed(start, samples) && n <= MAX_SPINS && !Idles(samples(n), p0, start)
    requires forall j :: 0 <= j < n ==> Idles(samples(j), p0, start)
    ensures StopsAt(samples, p0, start, 0) == n
  {
    var m := StopsAt(samples, p0, start, 0);
    assert !Idles(samples(m), p0, start);
  }

  /** The edge a poll catches when it looks for one, or starts on. */
  ghost function EdgeCaught(edgeLock: bool, first: Reading, start: nat, samples: nat -> EdgeRead): Caught
    requires WellTimed(start, samples)
  {
    if !edgeLock || first.Invalid? then NoEdge
    else
      var p0 := Frame(first.frames);
      var s := Outcome(samples, StopsAt(samples, p0, start, 0), p0);
      if s.Edge? then CaughtAt(s.pos, s.time) else NoEdge
  }

  /** The spin stops at its first read that is invalid, has moved inside a short
      bracket, or is past the deadline; a long bracket is never trusted. It stops
      after at most 401 reads because every pause takes its time. */
  method ReadPositionAtEdge(p0: nat, start: nat, samples: nat -> EdgeRead) returns (s: Spin)
    requires WellTimed(start, samples)
    ensures s == Outcome(samples, StopsAt(samples, p0, start, 0), p0)
  {
    var n, rejects := 0, 0;
    while true
      invariant n <= MAX_SPINS && rejects == Rejects(samples, n)
      invariant forall j :: 0 <= j < n ==> Idles(samples(j), p0, start)
      decreases MAX_SPINS - n
    {
      var r := samples(n);
      assert Rejects(samples, n + 1) == Rejects(samples, n) + (if Trusted(r) then 0 else 1);
      if r.reading.Invalid? {
        s := Lost(rejects);
        break;
      }
      if r.tB - r.tA <= EDGE_WINDOW {
        if Frame(r.reading.frames) != p0 {
          s := Edge(Frame(r.reading.frames), r.tB, rejects);
          break;
        }
      } else {
        rejects := rejects + 1;
      }
      SpinTakesTime(start, samples, n);
      if r.tB - start >= EDGE_DEADLINE {
        s := Missed(rejects);
        break;
      }
      assert Idles(samples(n), p0, start);
      n := n + 1;
    }
    assert s == Outcome(samples, n, p0);
    FirstStop(samples, p0, start, n);
  }

  /** What an edge is worth: the spin's answer is a read made after the start whose
      position differs from the first one, taken within 20 microseconds, by whose end it
      is dated; every earlier read was valid and either showed the old position or was not to
      be trusted; and it is among the first 401. */
  lemma EdgeIsGenuine(samples: nat -> EdgeRead, p0: nat, start: nat)
    requires WellTimed(start, samples)
    ensures var n := StopsAt(samples, p0, start, 0);
            var s, e := Outcome(samples, n, p0), samples(n);
            n <= 400 &&
            (s.Edge? ==> e.reading.At? && s.pos == Frame(e.reading.frames) != p0 && s.time == e.tB &&
                         e.tB - e.tA <= 20_000 && start <= e.tA) &&
            (s.Missed? ==> e.reading.At? && e.tB - start >= 2_000_000) &&
            (s.Lost? <==> e.reading.Invalid?)
    ensures forall j: nat :: j < StopsAt(samples, p0, start, 0) ==>
              samples(j).reading.At? && samples(j).tB - start < 2_000_000 &&
              (Frame(samples(j).reading.frames) == p0 || samples(j).tB - samples(j).tA > 20_000)
  {
    var n := StopsAt(samples, p0, start, 0);
    SpinTakesTime(start, samples, n);
    assert forall j: nat :: j < n ==> Idles(samples(j), p0, start);
  }

  function LongReads(samples: nat -> EdgeRead, n: nat): set<nat> {
    set i: nat | i < n && samples(i).tB - samples(i).tA > 20_000
  }

  /** The rejects are the reads whose bracket was too long. */
  lemma {:induction false} RejectsAreCounted(samples: nat -> EdgeRead, n: nat)
    ensures (forall k: nat :: samples(k).tA <= samples(k).tB) ==> Rejects(samples, n) == |LongReads(samples, n)|
  {
    if n == 0 {
      assert LongReads(samples, 0) == {};
    } else {
      RejectsAreCounted(samples, n - 1);
      var rest := LongReads(samples, n - 1);
      assert LongReads(samples, n) == if samples(n - 1).tB - samples(n - 1).tA > 20_000 then rest + {n - 1} else rest;
    }
  }

  /** The spin reports each of its rejects once: those before its last read, and that
      one too if it is a miss. */
  lemma SpinReportsRejects(samples: nat -> EdgeRead, p0: nat, start: nat)
    requires WellTimed(start, samples)
    ensures var n := StopsAt(samples, p0, start, 0);
            var s := Outcome(samples, n, p0);
            s.rejects == |LongReads(samples, if s.Missed? then n + 1 else n)|
  {
    var n := StopsAt(samples, p0, start, 0);
    RejectsAreCounted(samples, n);
    RejectsAreCounted(samples, n + 1);
  }

  // ---------- the clock ----------

  datatype Clock = Clock(lastWrapFrame: nat, lastStampTime: nat, loops: nat, freeRuns: nat, loopTime: nat)

  /** `framesAgo` frames before `at`; the clock remembers `at` itself. */
  function StampAt(k: Clock, increment: bool, at: nat, framesAgo: nat): Clock {
    var ago := framesAgo * 1_000_000_000 / RATE;
    k.(lastStampTime := at, loopTime := if at > ago then at - ago else 0,
       loops := if increment then k.loops + 1 else k.loops)
  }

  /** The edge a poll caught, if it looked for one. */
  datatype Caught = NoEdge | CaughtAt(pos: nat, time: nat)

  function StartClock(k: Clock, t0: nat, now: nat, caught: Caught): Clock {
    match caught
    case CaughtAt(pos, time) => StampAt(k, false, time, pos).(lastWrapFrame := pos)
    case NoEdge => StampAt(k, false, t0, now).(lastWrapFrame := now)
  }

  function PollLost(k: Clock, t0: nat): Clock {
    if k.lastStampTime != 0 && t0 >= k.lastStampTime + RING_PERIOD then
      StampAt(k, true, k.lastStampTime + RING_PERIOD, 0).(freeRuns := k.freeRuns + 1)
    else k
  }

  function PollValid(k: Clock, t0: nat, now: nat, caught: Caught): Clock {
    if now >= k.lastWrapFrame then k.(lastWrapFrame := now)
    else
      match caught
      case CaughtAt(pos, time) => StampAt(k, true, time, pos).(lastWrapFrame := pos)
      case NoEdge => StampAt(k, true, t0, now).(lastWrapFrame := now)
  }

  /** A poll against the true, unbounded frame counts: `frame` at the poll's read
      and `edge.frame` at the read the edge spin ended with. */
  datatype TrueEdge = None | Some(frame: nat, time: nat)

  datatype Poll = Outage(t0: nat) | Running(t0: nat, frame: nat, edge: TrueEdge)

  function EdgeOf(e: TrueEdge): Caught {
    if e.None? then NoEdge else CaughtAt(e.frame % RING, e.time)
  }

  function Step(k: Clock, p: Poll): Clock {
    match p
    case Outage(t0) => PollLost(k, t0)
    case Running(t0, frame, edge) => PollValid(k, t0, frame % RING, EdgeOf(edge))
  }

  function Run(k: Clock, polls: seq<Poll>): Clock
    decreases |polls|
  {
    if polls == [] then k else Run(Step(k, polls[0]), polls[1..])
  }

  // ---------- unwrapping ----------

  /** Does the poll look for an edge? Only when the position went backwards. */
  predicate Wraps(last: nat, p: Poll) {
    p.Running? && p.frame % RING < last % RING
  }

  /** The true frame count at the last read the clock accepted. */
  function Accepted(last: nat, p: Poll): nat {
    if p.Outage? then last
    else if Wraps(last, p) && p.edge.Some? then p.edge.frame
    else p.frame
  }

  function AcceptedBy(last: nat, polls: seq<Poll>): nat
    decreases |polls|
  {
    if polls == [] then last else AcceptedBy(Accepted(last, polls[0]), polls[1..])
  }

  /** Frames only advance, within a poll and from poll to poll. */
  predicate Advances(last: nat, polls: seq<Poll>)
    decreases |polls|
  {
    polls == [] ||
    ((polls[0].Running? ==> last <= polls[0].frame &&
                            (polls[0].edge.Some? ==> polls[0].frame <= polls[0].edge.frame)) &&
     Advances(Accepted(last, polls[0]), polls[1..]))
  }

  /** The poll comes less than one ring after the last accepted read, and the edge
      it waits for falls into the lap the poll saw. */
  predicate InTime(last: nat, p: Poll) {
    p.Running? ==> p.frame - last < RING &&
                   (Wraps(last, p) && p.edge.Some? ==> p.edge.frame / RING == p.frame / RING)
  }

  predicate AllInTime(last: nat, polls: seq<Poll>)
    decreases |polls|
  {
    polls == [] || (InTime(last, polls[0]) && AllInTime(Accepted(last, polls[0]), polls[1..]))
  }

  /** Laps the clock has counted off real wraps. */
  function Laps(k: Clock): int {
    k.loops - k.freeRuns
  }

  lemma StepUnwraps(k: Clock, p: Poll, last: nat)
    requires k.lastWrapFrame == last % RING && Advances(last, [p])
    ensures var n := Accepted(last, p);
            Step(k, p).lastWrapFrame == n % RING && last <= n &&
            Laps(Step(k, p)) - Laps(k) <= n / RING - last / RING &&
            (Laps(Step(k, p)) - Laps(k) == n / RING - last / RING <==> InTime(last, p))
  {
    assert [p][0] == p;
  }

  /** The laps counted never exceed the true ones, and equal them exactly when
      every poll was in time: one late poll is never made up for. */
  lemma {:induction false} LapsAreExact(k: Clock, polls: seq<Poll>, last: nat)
    requires k.lastWrapFrame == last % RING && Advances(last, polls)
    ensures var n := AcceptedBy(last, polls);
            var r := Run(k, polls);
            r.lastWrapFrame == n % RING && last <= n &&
            Laps(r) - Laps(k) <= n / RING - last / RING &&
            (Laps(r) - Laps(k) == n / RING - last / RING <==> AllInTime(last, polls))
    decreases |polls|
  {
    if polls != [] {
      var p := polls[0];
      assert [p][0] == p && [p][1..] == [];
      assert Advances(last, [p]);
      StepUnwraps(k, p, last);
      LapsAreExact(Step(k, p), polls[1..], Accepted(last, p));
    }
  }

  /** Unwrapping: since the engine started at true frame `first`, counted laps and
      the ring position make up the true frame count, if and only if no poll was late. */
  lemma UnwrappingIsExact(start: Clock, first: nat, polls: seq<Poll>)
    requires start.lastWrapFrame == first % RING && Advances(first, polls)
    ensures var r := Run(start, polls);
            (Laps(r) - Laps(start)) * RING + r.lastWrapFrame - first % RING == AcceptedBy(first, polls) - first <==>
            AllInTime(first, polls)
  {
    LapsAreExact(start, polls, first);
    var n := AcceptedBy(first, polls);
    assert n == n / RING * RING + n % RING && first == first / RING * RING + first % RING;
  }

  /** Polls less than one ring apart, edges included, are in time. */
  lemma {:induction false} CloseReadsAreInTime(last: nat, polls: seq<Poll>)
    requires Advances(last, polls) && ReadsClose(last, polls)
    ensures AllInTime(last, polls)
    decreases |polls|
  {
    if polls != [] {
      CloseReadsAreInTime(Accepted(last, polls[0]), polls[1..]);
    }
  }

  predicate ReadsClose(last: nat, polls: seq<Poll>)
    decreases |polls|
  {
    polls == [] ||
    ((polls[0].Running? ==> polls[0].frame - last < RING && Accepted(last, polls[0]) - last < RING) &&
     ReadsClose(Accepted(last, polls[0]), polls[1..]))
  }

  // ---------- time ----------

  /** When a poll is over: at its last clock read. */
  function Done(p: Poll): nat {
    if p.Running? && p.edge.Some? then p.edge.time else p.t0
  }

  predicate Timed(now: nat, polls: seq<Poll>)
    decreases |polls|
  {
    polls == [] ||
    (now <= polls[0].t0 <= Done(polls[0]) && Timed(Done(polls[0]), polls[1..]))
  }

  function Finish(now: nat, polls: seq<Poll>): nat
    decreases |polls|
  {
    if polls == [] then now else Finish(Done(polls[0]), polls[1..])
  }

  /** The last stamp is never in the future, so no elapsed time is negative. */
  lemma {:induction false} StampsStayBehind(k: Clock, now: nat, polls: seq<Poll>)
    requires k.lastStampTime <= now && Timed(now, polls)
    ensures Run(k, polls).lastStampTime <= Finish(now, polls)
    decreases |polls|
  {
    if polls != [] {
      StampsStayBehind(Step(k, polls[0]), Done(polls[0]), polls[1..]);
    }
  }

  /** A poll in an outage leaves the time line less than one period behind the
      clock exactly when it came less than two periods after the last stamp. */
  lemma OutagePoll(k: Clock, t0: nat)
    requires 0 < k.lastStampTime <= t0
    ensures var r := PollLost(k, t0);
            r.lastStampTime <= t0 && r.lastWrapFrame == k.lastWrapFrame &&
            r.lastStampTime - k.lastStampTime == (r.loops - k.loops) * RING_PERIOD &&
            r.loopTime == (if r.loops > k.loops then r.lastStampTime else k.loopTime) &&
            (t0 - r.lastStampTime < RING_PERIOD <==> t0 - k.lastStampTime < 2 * RING_PERIOD)
  {
  }

  predicate PolledOften(now: nat, times: seq<nat>)
    decreases |times|
  {
    times == [] || (now <= times[0] <= now + RING_PERIOD && PolledOften(times[0], times[1..]))
  }

  function RunOutage(k: Clock, times: seq<nat>): Clock
    decreases |times|
  {
    if times == [] then k else RunOutage(PollLost(k, times[0]), times[1..])
  }

  /** Through a whole outage: stamps come exactly one ring period apart, one per
      counted loop, never ahead of the clock and never a full period behind it. */
  lemma {:induction false} FreeRunKeepsTime(k: Clock, times: seq<nat>)
    requires times != [] && 0 < k.lastStampTime <= times[0] < k.lastStampTime + 2 * RING_PERIOD
    requires PolledOften(times[0], times[1..])
    ensures var r := RunOutage(k, times);
            var end := times[|times| - 1];
            r.lastStampTime <= end < r.lastStampTime + RING_PERIOD &&
            r.lastStampTime - k.lastStampTime == (r.loops - k.loops) * RING_PERIOD &&
            Laps(r) == Laps(k) && r.lastWrapFrame == k.lastWrapFrame
    decreases |times|
  {
    OutagePoll(k, times[0]);
    var s := PollLost(k, times[0]);
    if |times| == 1 {
      assert RunOutage(s, times[1..]) == s;
    } else {
      FreeRunKeepsTime(s, times[1..]);
      var r := RunOutage(s, times[1..]);
      assert (r.loops - s.loops) * RING_PERIOD + (s.loops - k.loops) * RING_PERIOD == (r.loops - k.loops) * RING_PERIOD;
    }
  }

  /** The time handed out last in an outage is that of the last stamp, not back-dated:
      a free-run loop begins where its period does. */
  lemma {:induction false} FreeRunHandsOutStamps(k: Clock, times: seq<nat>)
    ensures var r := RunOutage(k, times);
            r.loops >= k.loops && r.loopTime == (if r.loops > k.loops then r.lastStampTime else k.loopTime) &&
            (r.loops == k.loops ==> r.lastStampTime == k.lastStampTime)
    decreases |times|
  {
    if times != [] {
      FreeRunHandsOutStamps(PollLost(k, times[0]), times[1..]);
    }
  }

  // ---------- the times handed to the family ----------

  const NS_PER_FRAME: real := 1_000_000_000.0 / 48_000.0

  /** A free-run period is the nominal time of a whole ring, in whole nanoseconds. */
  lemma PeriodIsARing()
    ensures RING_PERIOD == 341_333_333 == Over(16384, 1_000_000_000.0 / 48_000.0).Floor
  {
  }

  lemma WholeNanoseconds(frames: nat)
    ensures frames * 1_000_000_000 / RATE == Over(frames, NS_PER_FRAME).Floor
  {
    var x := Over(frames, NS_PER_FRAME);
    assert x * 48_000.0 == (frames * 1_000_000_000) as real;
  }

  /** A stamp built from a read `pos` frames into a lap is the true time of the lap's
      first frame, within the delay of the read, the rate error of a lap and the
      fraction of a nanosecond. */
  lemma StampIsTrue(
    timeOf: nat -> real, k: Clock, increment: bool, at: nat, start: nat, pos: nat, rate: real, delay: real)
    requires Steady(timeOf, NS_PER_FRAME, rate) && pos < RING && timeOf(start) >= 0.0
    requires Abs(at as real - timeOf(start + pos)) <= delay
    ensures Abs(StampAt(k, increment, at, pos).loopTime as real - timeOf(start)) <= Jitter(rate, delay)
  {
    WholeNanoseconds(pos);
    BackDatingIsClose(timeOf, at - Over(pos, NS_PER_FRAME).Floor, at, start, pos, NS_PER_FRAME, rate, delay);
  }

  /** The reads of a poll are made within `delay` of the times taken for them. */
  predicate PromptPoll(timeOf: nat -> real, p: Poll, delay: real) {
    p.Running? && Abs(p.t0 as real - timeOf(p.frame)) <= delay &&
    (p.edge.Some? ==> Abs(p.edge.time as real - timeOf(p.edge.frame)) <= delay)
  }

  ghost predicate PromptPolls(timeOf: nat -> real, polls: seq<Poll>, delay: real) {
    (forall i :: 0 <= i < |polls| ==> PromptPoll(timeOf, polls[i], delay)) && (forall f: nat :: timeOf(f) >= 0.0)
  }

  /** The time handed out last is the true start of the lap of frame `f`. */
  predicate TrueLoopTime(timeOf: nat -> real, k: Clock, f: nat, rate: real, delay: real) {
    Abs(k.loopTime as real - timeOf(LapStart(f))) <= Jitter(rate, delay)
  }

  /** A wrap hands out a true time, whatever was handed out before, and an outage
      before it makes no difference; a poll without a wrap hands out none. */
  lemma WrapIsTrue(timeOf: nat -> real, k: Clock, p: Poll, last: nat, rate: real, delay: real)
    requires Steady(timeOf, NS_PER_FRAME, rate) && PromptPolls(timeOf, [p], delay)
    requires k.lastWrapFrame == last % RING && Advances(last, [p]) && InTime(last, p)
    requires Wraps(last, p) || TrueLoopTime(timeOf, k, last, rate, delay)
    ensures TrueLoopTime(timeOf, Step(k, p), Accepted(last, p), rate, delay)
  {
    assert [p][0] == p;
    var n := Accepted(last, p);
    if Wraps(last, p) {
      var at := if p.edge.Some? then p.edge.time else p.t0;
      assert LapStart(n) + n % RING == n;
      StampIsTrue(timeOf, k, true, at, LapStart(n), n % RING, rate, delay);
    } else {
      assert LapStart(n) == LapStart(last);
    }
  }

  /** Over every run of in-time polls each time handed out is the true time of its
      lap's first frame, exact to a nanosecond for prompt reads at the nominal rate. */
  lemma {:induction false} LoopTimesAreTrue(
    timeOf: nat -> real, k: Clock, polls: seq<Poll>, last: nat, rate: real, delay: real)
    requires Steady(timeOf, NS_PER_FRAME, rate) && PromptPolls(timeOf, polls, delay)
    requires k.lastWrapFrame == last % RING && Advances(last, polls) && AllInTime(last, polls)
    requires TrueLoopTime(timeOf, k, last, rate, delay)
    ensures TrueLoopTime(timeOf, Run(k, polls), AcceptedBy(last, polls), rate, delay)
    decreases |polls|
  {
    if polls != [] {
      var p, rest := polls[0], polls[1..];
      assert PromptPoll(timeOf, polls[0], delay);
      assert [p][0] == p && [p][1..] == [] && PromptPolls(timeOf, [p], delay);
      assert PromptPolls(timeOf, rest, delay) by {
        forall i | 0 <= i < |rest| ensures PromptPoll(timeOf, rest[i], delay) {
          assert rest[i] == polls[i + 1];
        }
      }
      assert Advances(last, [p]);
      WrapIsTrue(timeOf, k, p, last, rate, delay);
      StepUnwraps(k, p, last);
      LoopTimesAreTrue(timeOf, Step(k, p), rest, Accepted(last, p), rate, delay);
    }
  }

  /** The session's first read: the caught edge, or the position at the start. */
  function Anchor(frame: nat, edge: TrueEdge): nat {
    if edge.Some? then edge.frame else frame
  }

  /** A start, from whatever clock, stands where the hardware does, counts no loop and
      hands out the true start of its lap. */
  lemma StartIsTrue(timeOf: nat -> real, k: Clock, t0: nat, frame: nat, edge: TrueEdge, rate: real, delay: real)
    requires Steady(timeOf, NS_PER_FRAME, rate) && PromptPolls(timeOf, [Running(t0, frame, edge)], delay)
    ensures var s := StartClock(k, t0, frame % RING, EdgeOf(edge));
            var first := Anchor(frame, edge);
            s.lastWrapFrame == first % RING && Laps(s) == Laps(k) && s.loops == k.loops &&
            s.lastStampTime == (if edge.Some? then edge.time else t0) &&
            TrueLoopTime(timeOf, s, first, rate, delay)
  {
    assert [Running(t0, frame, edge)][0] == Running(t0, frame, edge);
    assert PromptPoll(timeOf, [Running(t0, frame, edge)][0], delay);
    var first := Anchor(frame, edge);
    assert LapStart(first) + first % RING == first;
    StampIsTrue(timeOf, k, false, if edge.Some? then edge.time else t0, LapStart(first), first % RING, rate, delay);
  }

  /** A whole session from its start, while its polls are in time: the loops counted
      lead from the first lap to the present one, the position with them is the true
      frame count, and the time handed out last is the present lap's true start. */
  lemma SessionIsTrue(
    timeOf: nat -> real, k: Clock, t0: nat, frame: nat, edge: TrueEdge, polls: seq<Poll>, rate: real, delay: real)
    requires Steady(timeOf, NS_PER_FRAME, rate)
    requires PromptPolls(timeOf, [Running(t0, frame, edge)], delay) && PromptPolls(timeOf, polls, delay)
    requires Advances(Anchor(frame, edge), polls) && AllInTime(Anchor(frame, edge), polls)
    ensures var r := Run(StartClock(k, t0, frame % RING, EdgeOf(edge)), polls);
            var first := Anchor(frame, edge);
            var now := AcceptedBy(first, polls);
            (Laps(r) - Laps(k)) * RING + r.lastWrapFrame - first % RING == now - first &&
            TrueLoopTime(timeOf, r, now, rate, delay)
  {
    var s, first := StartClock(k, t0, frame % RING, EdgeOf(edge)), Anchor(frame, edge);
    StartIsTrue(timeOf, k, t0, frame, edge, rate, delay);
    UnwrappingIsExact(s, first, polls);
    LoopTimesAreTrue(timeOf, s, polls, first, rate, delay);
  }

  /** One instance in numbers: seen at frame 4800, the wrap was 100 ms ago. */
  lemma WrapAt4800(k: Clock)
    requires k.lastWrapFrame == 16000
    ensures Step(k, Running(1_000_000_000, 16384 + 4800, None)).loopTime == 900_000_000
  {
  }

  // ---------- into an outage and out of it ----------

  /** A read of frame f at time t and a later one of frame g at time u: the hardware
      takes its nominal time for the frames between, up to `slack`. */
  predicate Paced(f: nat, t: nat, g: nat, u: nat, slack: nat) {
    f <= g && u <= t + (g - f) * 1_000_000_000 / RATE + slack
  }

  /** The read the last stamp was built from. */
  datatype Mark = Mark(frame: nat, time: nat)

  function MarkAfter(mark: Mark, last: nat, p: Poll): Mark {
    if !Wraps(last, p) then mark
    else if p.edge.Some? then Mark(p.edge.frame, p.edge.time)
    else Mark(p.frame, p.t0)
  }

  /** Running polls, in time, whose reads keep pace with the stamp before them. */
  predicate Keeps(mark: Mark, last: nat, polls: seq<Poll>, slack: nat)
    decreases |polls|
  {
    polls == [] ||
    (polls[0].Running? && polls[0].t0 <= Done(polls[0]) && InTime(last, polls[0]) &&
     Paced(mark.frame, mark.time, polls[0].frame, polls[0].t0, slack) &&
     Keeps(MarkAfter(mark, last, polls[0]), Accepted(last, polls[0]), polls[1..], slack))
  }

  /** The clock after a stamp in the lap of the last accepted read. */
  predicate Marked(k: Clock, mark: Mark, last: nat) {
    k.lastWrapFrame == last % RING && k.lastStampTime == mark.time && mark.frame <= last &&
    mark.frame / RING == last / RING
  }

  lemma InOneLap(f: nat, g: nat)
    requires f <= g && f / RING == g / RING
    ensures (g - f) * 1_000_000_000 / RATE <= RING_PERIOD
  {
  }

  /** While polls are in time, the last stamp lies in the lap of the last read, so no
      poll comes later than a period and the slack after the stamp it leaves. */
  lemma {:induction false} LagIsBounded(k: Clock, mark: Mark, last: nat, polls: seq<Poll>, slack: nat)
    requires Marked(k, mark, last) && Advances(last, polls) && Keeps(mark, last, polls, slack) && polls != []
    ensures polls[|polls| - 1].t0 <= Run(k, polls).lastStampTime + RING_PERIOD + slack
    decreases |polls|
  {
    var p, rest := polls[0], polls[1..];
    var s, m := Step(k, p), MarkAfter(mark, last, p);
    assert Marked(s, m, Accepted(last, p));
    if rest == [] {
      assert Run(s, rest) == s;
      if !Wraps(last, p) {
        InOneLap(mark.frame, p.frame);
      }
    } else {
      LagIsBounded(s, m, Accepted(last, p), rest, slack);
    }
  }

  /** Into an outage: when its first poll comes within a period, less the slack, of the
      last valid one, the time line is kept through it. */
  lemma OutageIsEntered(k: Clock, mark: Mark, last: nat, polls: seq<Poll>, times: seq<nat>, slack: nat)
    requires Marked(k, mark, last) && Advances(last, polls) && Keeps(mark, last, polls, slack) && polls != []
    requires times != [] && 0 < Run(k, polls).lastStampTime <= times[0]
    requires times[0] + slack < polls[|polls| - 1].t0 + RING_PERIOD
    requires PolledOften(times[0], times[1..])
    ensures var s := Run(k, polls);
            var r := RunOutage(s, times);
            var end := times[|times| - 1];
            r.lastStampTime <= end < r.lastStampTime + RING_PERIOD &&
            r.lastStampTime - s.lastStampTime == (r.loops - s.loops) * RING_PERIOD
  {
    LagIsBounded(k, mark, last, polls, slack);
    FreeRunKeepsTime(Run(k, polls), times);
  }

  /** And out of it: the first valid poll compares with the position from before the
      outage. It counts one more loop exactly when it finds the hardware, started anew,
      at a lower position; that stamp follows the last free-run stamp by less than a
      period when the poll comes within the period the free run had got to. */
  lemma ReturnCountsALoop(k: Clock, times: seq<nat>, t0: nat, now: nat)
    requires times != [] && 0 < k.lastStampTime <= times[0] < k.lastStampTime + 2 * RING_PERIOD
    requires PolledOften(times[0], times[1..]) && t0 >= times[|times| - 1]
    ensures var r := RunOutage(k, times);
            var s := PollValid(r, t0, now, NoEdge);
            s.loops == r.loops + (if now < k.lastWrapFrame then 1 else 0) &&
            (now < k.lastWrapFrame ==>
              (s.lastStampTime - r.lastStampTime < RING_PERIOD <==> t0 < r.lastStampTime + RING_PERIOD)) &&
            s.loops - s.freeRuns == k.loops - k.freeRuns + (if now < k.lastWrapFrame then 1 else 0)
  {
    FreeRunKeepsTime(k, times);
  }

  // ---------- the engine ----------

  class EngineClock {
    const edgeLock: bool
    var lastWrapFrame: nat
    var lastStampTime: nat
    var loops: nat
    var freeRuns: nat
    var loopTime: nat
    var edgeMisses: nat
    var notReadyPolls: nat
    var preemptRejects: nat

    function View(): Clock
      reads this
    {
      Clock(lastWrapFrame, lastStampTime, loops, freeRuns, loopTime)
    }

    constructor (edgeLock: bool)
      ensures this.edgeLock == edgeLock && View() == Clock(0, 0, 0, 0, 0)
    {
      this.edgeLock := edgeLock;
      lastWrapFrame, lastStampTime, loops, freeRuns, loopTime := 0, 0, 0, 0, 0;
      edgeMisses, notReadyPolls, preemptRejects := 0, 0, 0;
    }

    method Stamp(increment: bool, at: nat, framesAgo: nat)
      modifies this
      ensures View() == StampAt(old(View()), increment, at, framesAgo)
      ensures notReadyPolls == old(notReadyPolls) && edgeMisses == old(edgeMisses)
      ensures preemptRejects == old(preemptRejects)
    {
      var ago := framesAgo * 1_000_000_000 / RATE;
      lastStampTime := at;
      loopTime := if at > ago then at - ago else 0;
      if increment {
        loops := loops + 1;
      }
    }

    /** The spin with its two anomaly counters. */
    method CatchEdge(first: Reading, start: nat, samples: nat -> EdgeRead) returns (caught: Caught)
      requires WellTimed(start, samples)
      modifies this`edgeMisses, this`preemptRejects
      ensures caught == EdgeCaught(edgeLock, first, start, samples)
      ensures !edgeLock || first.Invalid? ==>
                edgeMisses == old(edgeMisses) && preemptRejects == old(preemptRejects)
      ensures edgeLock && first.At? ==>
                var s := Outcome(samples, StopsAt(samples, Frame(first.frames), start, 0), Frame(first.frames));
                edgeMisses == old(edgeMisses) + (if s.Missed? then 1 else 0) &&
                preemptRejects == old(preemptRejects) + s.rejects
    {
      caught := NoEdge;
      if !edgeLock || first.Invalid? {
        return;
      }
      var s := ReadPositionAtEdge(Frame(first.frames), start, samples);
      preemptRejects := preemptRejects + s.rejects;
      match s
      case Edge(pos, time, _) => caught := CaughtAt(pos, time);
      case Lost(_) =>
      case Missed(_) => edgeMisses := edgeMisses + 1;
    }

    method Start(t0: nat, first: Reading, start: nat, samples: nat -> EdgeRead, fallback: nat)
      requires WellTimed(start, samples)
      modifies this
      ensures View() == StartClock(old(View()), t0, Frame(fallback), EdgeCaught(edgeLock, first, start, samples))
      ensures notReadyPolls == old(notReadyPolls)
    {
      var caught := CatchEdge(first, start, samples);
      match caught
      case CaughtAt(pos, time) =>
        lastWrapFrame := pos;
        Stamp(false, time, pos);
      case NoEdge =>
        lastWrapFrame := Frame(fallback);
        Stamp(false, t0, Frame(fallback));
    }

    /** The 100 ms poll. */
    method WrapTimerFired(t0: nat, reading: Reading, first: Reading, start: nat, samples: nat -> EdgeRead)
      requires WellTimed(start, samples) && lastStampTime <= t0
      modifies this
      ensures View() == if reading.Invalid? then PollLost(old(View()), t0)
                        else PollValid(old(View()), t0, Frame(reading.frames),
                                       EdgeCaught(edgeLock, first, start, samples))
      ensures notReadyPolls == old(notReadyPolls) + (if reading.Invalid? then 1 else 0)
      ensures reading.Invalid? || Frame(reading.frames) >= old(lastWrapFrame) ==>
                edgeMisses == old(edgeMisses) && preemptRejects == old(preemptRejects)
    {
      if reading.Invalid? {
        notReadyPolls := notReadyPolls + 1;
        if lastStampTime != 0 && t0 - lastStampTime >= RING_PERIOD {
          freeRuns := freeRuns + 1;
          Stamp(true, lastStampTime + RING_PERIOD, 0);
        }
        return;
      }
      var now := Frame(reading.frames);
      if now < lastWrapFrame {
        var caught := CatchEdge(first, start, samples);
        match caught {
          case CaughtAt(pos, time) =>
            Stamp(true, time, pos);
            now := pos;
          case NoEdge =>
            Stamp(true, t0, now);
        }
      }
      lastWrapFrame := now;
    }
  }
}
