/** True host times of hardware frames, and what back-dating to a lap's start is worth. */
module TimeLines {
  const RING: nat := 16384

  function Abs(x: real): real {
    if x < 0.0 then -x else x
  }

  /** What `n` frames add up to. */
  function Over(n: nat, perFrame: real): real {
    n as real * perFrame
  }

  /** From frame f on, n frames take their nominal time up to `rate` ticks each. */
  predicate SteadyAt(timeOf: nat -> real, f: nat, n: nat, ticksPerFrame: real, rate: real) {
    Abs(timeOf(f + n) - timeOf(f) - Over(n, ticksPerFrame)) <= Over(n, rate)
  }

  /** The hardware does not run further from the nominal rate: `timeOf` is the true
      host time of a frame. */
  ghost predicate Steady(timeOf: nat -> real, ticksPerFrame: real, rate: real) {
    rate >= 0.0 && forall f: nat, n: nat :: SteadyAt(timeOf, f, n, ticksPerFrame, rate)
  }

  function LapStart(frame: nat): nat {
    frame - frame % RING
  }

  /** How far a back-dated wrap can be off: the delay, a lap at the wrong rate, a fraction of a tick. */
  function Jitter(rate: real, delay: real): real {
    delay + Over(RING, rate) + 1.0
  }

  lemma AtMostALap(pos: nat, rate: real)
    requires pos < RING && rate >= 0.0
    ensures 0.0 <= Over(pos, rate) <= Over(RING, rate)
  {
  }

  lemma FloorIsClose(
    observed: int, now: int, back: real, read: real, start: real, slack: real, lap: real, delay: real)
    requires observed == now - back.Floor && slack <= lap
    requires Abs(now as real - read) <= delay && Abs(read - start - back) <= slack
    ensures Abs(observed as real - start) <= delay + lap + 1.0
  {
  }

  /** Back-dating a read of position `pos` by the nominal time of its frames comes
      within the jitter of the true time of the lap's first frame. */
  lemma BackDatingIsClose(
    timeOf: nat -> real, observed: int, now: nat, start: nat, pos: nat, ticksPerFrame: real, rate: real, delay: real)
    requires Steady(timeOf, ticksPerFrame, rate) && Abs(now as real - timeOf(start + pos)) <= delay && pos < RING
    requires observed == now - Over(pos, ticksPerFrame).Floor
    ensures Abs(observed as real - timeOf(start)) <= Jitter(rate, delay)
  {
    AtMostALap(pos, rate);
    assert SteadyAt(timeOf, start, pos, ticksPerFrame, rate);
    FloorIsClose(observed, now, Over(pos, ticksPerFrame), timeOf(start + pos), timeOf(start),
                 Over(pos, rate), Over(RING, rate), delay);
  }
}
