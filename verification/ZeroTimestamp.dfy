/**
 The plugin's filtered clock: it counts ring wraps in the positions the driver
 reports and follows their host times with a one-eighth correction. Times are host
 ticks; the stored wrap time is a whole number of them.
 */
module ZeroTimestamp {
  import opened TimeLines

  /** The stored time after a wrap: one ring later, corrected an eighth of the way
      towards the observed wrap, and truncated. */
  function Correct(stored: int, ringTicks: real, observed: int): int {
    var predicted := stored as real + ringTicks;
    (predicted + (observed as real - predicted) / 8.0).Floor
  }

  /** The correction without its fractions: the whole number of ticks at or below
      seven parts of the prediction and one of the observation. */
  predicate IsEighthStep(corrected: int, predicted: real, observed: int) {
    8.0 * corrected as real <= 7.0 * predicted + observed as real < 8.0 * corrected as real + 8.0
  }

  lemma CorrectIsEighthStep(stored: int, ringTicks: real, observed: int, corrected: int)
    ensures IsEighthStep(corrected, stored as real + ringTicks, observed) <==>
            corrected == Correct(stored, ringTicks, observed)
  {
    var x := 7.0 / 8.0 * (stored as real + ringTicks) + observed as real / 8.0;
    assert Correct(stored, ringTicks, observed) == x.Floor;
    assert corrected as real <= x < corrected as real + 1.0 <==> corrected == x.Floor;
  }

  function Follow(stored: int, ringTicks: real, observed: seq<int>): int
    decreases |observed|
  {
    if observed == [] then stored
    else Correct(Follow(stored, ringTicks, observed[..|observed| - 1]), ringTicks, observed[|observed| - 1])
  }

  // ---------- the error of the estimate ----------

  function Max(a: real, b: real): real {
    if a < b then b else a
  }

  /** Wrap k happens at `wraps[k]`; successive wraps are one ring apart up to
      `drift`, and each but the first is observed up to `jitter`. */
  predicate Tracks(wraps: seq<real>, observed: seq<int>, ringTicks: real, drift: real, jitter: real) {
    |wraps| == |observed| + 1 &&
    (forall k :: 0 <= k < |observed| ==>
      Abs(wraps[k + 1] - wraps[k] - ringTicks) <= drift && Abs(observed[k] as real - wraps[k + 1]) <= jitter)
  }

  lemma CorrectionStep(stored: int, ringTicks: real, observed: int, wrap: real, next: real, drift: real, jitter: real)
    requires Abs(next - wrap - ringTicks) <= drift && Abs(observed as real - next) <= jitter
    ensures var e := stored as real - wrap;
            var f := Correct(stored, ringTicks, observed) as real - next;
            f <= 7.0 * (e + drift) / 8.0 + jitter / 8.0 &&
            f > 7.0 * (e - drift) / 8.0 - jitter / 8.0 - 1.0
  {
  }

  /** However many wraps pass, the error stays within the start error or the limit
      7 * drift + jitter, with 8 ticks more on the early side for the truncation. */
  lemma {:induction false} ErrorIsBounded(
    stored: int, ringTicks: real, wraps: seq<real>, observed: seq<int>, drift: real, jitter: real)
    requires Tracks(wraps, observed, ringTicks, drift, jitter)
    ensures var e0 := stored as real - wraps[0];
            var e := Follow(stored, ringTicks, observed) as real - wraps[|wraps| - 1];
            var limit := 7.0 * drift + jitter;
            e <= Max(e0, limit) && e >= -Max(-e0, limit + 8.0)
    decreases |observed|
  {
    if observed != [] {
      var n := |observed| - 1;
      TracksPrefix(wraps, observed, ringTicks, drift, jitter);
      ErrorIsBounded(stored, ringTicks, wraps[..n + 1], observed[..n], drift, jitter);
      var before := Follow(stored, ringTicks, observed[..n]);
      CorrectionStep(before, ringTicks, observed[n], wraps[n], wraps[n + 1], drift, jitter);
    }
  }

  lemma TracksPrefix(wraps: seq<real>, observed: seq<int>, ringTicks: real, drift: real, jitter: real)
    requires Tracks(wraps, observed, ringTicks, drift, jitter) && observed != []
    ensures Tracks(wraps[..|wraps| - 1], observed[..|observed| - 1], ringTicks, drift, jitter)
  {
  }

  /** `x` after n times an eighth of it is gone. */
  function Shrunk(x: real, n: nat): real {
    if n == 0 then x else 7.0 / 8.0 * Shrunk(x, n - 1)
  }

  lemma {:induction false} ShrunkAdds(x: real, m: nat, n: nat)
    ensures Shrunk(Shrunk(x, m), n) == Shrunk(x, m + n)
    ensures x >= 0.0 ==> 0.0 <= Shrunk(x, m) <= x
  {
    if n > 0 {
      ShrunkAdds(x, m, n - 1);
    } else if m > 0 {
      ShrunkAdds(x, m - 1, 0);
    }
  }

  /** What a start error in excess of the limit shrinks to. */
  function Excess(e0: real, limit: real, n: nat): real {
    Shrunk(Max(Abs(e0) - limit, 0.0), n)
  }

  /** Every wrap takes one eighth off whatever the error exceeds the limit by. */
  lemma {:induction false} ErrorContracts(
    stored: int, ringTicks: real, wraps: seq<real>, observed: seq<int>, drift: real, jitter: real)
    requires Tracks(wraps, observed, ringTicks, drift, jitter)
    ensures var e0 := stored as real - wraps[0];
            var e := Follow(stored, ringTicks, observed) as real - wraps[|wraps| - 1];
            var limit := 7.0 * drift + jitter + 8.0;
            Abs(e) <= limit + Excess(e0, limit, |observed|)
    decreases |observed|
  {
    var e0 := stored as real - wraps[0];
    var limit := 7.0 * drift + jitter + 8.0;
    if observed == [] {
    } else {
      var n := |observed| - 1;
      TracksPrefix(wraps, observed, ringTicks, drift, jitter);
      ErrorContracts(stored, ringTicks, wraps[..n + 1], observed[..n], drift, jitter);
      var before := Follow(stored, ringTicks, observed[..n]);
      CorrectionStep(before, ringTicks, observed[n], wraps[n], wraps[n + 1], drift, jitter);
      ShrunkAdds(Max(Abs(e0) - limit, 0.0), n, 1);
    }
  }

  // ---------- the clock ----------

  datatype Position = NoConnection | At(pos: nat)

  datatype Clock = Clock(wraps: nat, lastPos: nat, wrapTime: int, primed: bool)

  function RingTicks(ticksPerFrame: real): real {
    ticksPerFrame * RING as real
  }

  /** The nominal time of the n-th ring after `anchor`, when there is no hardware to ask. */
  function Nominal(anchor: nat, n: nat, ticksPerFrame: real): int {
    anchor + (n as real * RingTicks(ticksPerFrame)).Floor
  }

  /** Nominal times lie on the line through the anchor with a ring's time as slope, to
      the whole tick below. */
  lemma NominalIsTheLine(anchor: nat, n: nat, ticksPerFrame: real)
    ensures var line := anchor as real + n as real * (ticksPerFrame * 16384.0);
            line - 1.0 < Nominal(anchor, n, ticksPerFrame) as real <= line
  {
  }

  /** One query without hardware. */
  function AskNominal(anchor: nat, n: nat, now: nat, ticksPerFrame: real): nat {
    if Nominal(anchor, n + 1, ticksPerFrame) <= now then n + 1 else n
  }

  function RunNominal(anchor: nat, n: nat, times: seq<nat>, ticksPerFrame: real): nat
    decreases |times|
  {
    if times == [] then n
    else RunNominal(anchor, AskNominal(anchor, n, times[0], ticksPerFrame), times[1..], ticksPerFrame)
  }

  /** Every query comes before a second ring can pass. */
  predicate AskedOften(anchor: nat, n: nat, times: seq<nat>, ticksPerFrame: real)
    decreases |times|
  {
    times == [] ||
    (Nominal(anchor, n, ticksPerFrame) <= times[0] < Nominal(anchor, n + 2, ticksPerFrame) &&
     AskedOften(anchor, AskNominal(anchor, n, times[0], ticksPerFrame), times[1..], ticksPerFrame))
  }

  /** The fallback clock stands in the nominal ring of now, through any run of queries
      that is dense enough. */
  lemma {:induction false} NominalKeepsTime(anchor: nat, n: nat, times: seq<nat>, ticksPerFrame: real)
    requires times != [] && AskedOften(anchor, n, times, ticksPerFrame)
    ensures var m := RunNominal(anchor, n, times, ticksPerFrame);
            var now := times[|times| - 1];
            Nominal(anchor, m, ticksPerFrame) <= now < Nominal(anchor, m + 1, ticksPerFrame)
    decreases |times|
  {
    var m := AskNominal(anchor, n, times[0], ticksPerFrame);
    if |times| == 1 {
      assert RunNominal(anchor, m, times[1..], ticksPerFrame) == m;
    } else {
      NominalKeepsTime(anchor, m, times[1..], ticksPerFrame);
    }
  }

  const UNPRIMED: Clock := Clock(0, 0, 0, false)

  function Observe(now: nat, pos: nat, ticksPerFrame: real): int {
    now - (pos as real * ticksPerFrame).Floor
  }

  function Poll(k: Clock, now: nat, reported: nat, ticksPerFrame: real): Clock {
    var pos := reported % RING;
    var observed := Observe(now, pos, ticksPerFrame);
    if !k.primed then Clock(k.wraps, pos, observed, true)
    else if pos < k.lastPos then
      Clock(k.wraps + 1, pos, Correct(k.wrapTime, RingTicks(ticksPerFrame), observed), true)
    else k.(lastPos := pos)
  }

  /** A query of the clock: when, and how far the hardware has come since it started.
      While the DSP is down the driver answers 0 all the same, and the hardware will
      start anew. */
  datatype Query = Query(now: nat, frame: nat) | Down(now: nat)

  function Reported(q: Query): nat {
    if q.Down? then 0 else q.frame
  }

  function Ask(k: Clock, q: Query, ticksPerFrame: real): Clock {
    Poll(k, q.now, Reported(q), ticksPerFrame)
  }

  function Run(k: Clock, queries: seq<Query>, ticksPerFrame: real): Clock
    decreases |queries|
  {
    if queries == [] then k else Run(Ask(k, queries[0], ticksPerFrame), queries[1..], ticksPerFrame)
  }

  /** Frames since the last start of the hardware. */
  function Last(frame: nat, queries: seq<Query>): nat
    decreases |queries|
  {
    if queries == [] then frame else Last(Reported(queries[0]), queries[1..])
  }

  predicate Advancing(frame: nat, queries: seq<Query>)
    decreases |queries|
  {
    queries == [] ||
    ((queries[0].Query? ==> frame <= queries[0].frame) && Advancing(Reported(queries[0]), queries[1..]))
  }

  predicate NeverLate(frame: nat, queries: seq<Query>)
    decreases |queries|
  {
    queries == [] ||
    ((queries[0].Query? ==> queries[0].frame - frame < RING) && NeverLate(Reported(queries[0]), queries[1..]))
  }

  /** Rings the hardware finished between the queries. */
  function Laps(frame: nat, queries: seq<Query>): int
    decreases |queries|
  {
    if queries == [] then 0
    else
      (if queries[0].Query? then queries[0].frame / RING - frame / RING else 0) +
      Laps(Reported(queries[0]), queries[1..])
  }

  /** Rings it did not: one for each query of a DSP that went down off position 0. */
  function Phantoms(frame: nat, queries: seq<Query>): nat
    decreases |queries|
  {
    if queries == [] then 0
    else (if queries[0].Down? && frame % RING > 0 then 1 else 0) + Phantoms(Reported(queries[0]), queries[1..])
  }

  /** The wraps that made the stored time what it is, latest last. */
  function Observations(k: Clock, queries: seq<Query>, ticksPerFrame: real): seq<int>
    decreases |queries|
  {
    if queries == [] then []
    else
      var q := queries[0];
      var pos := Reported(q) % RING;
      (if k.primed && pos < k.lastPos then [Observe(q.now, pos, ticksPerFrame)] else []) +
      Observations(Ask(k, q, ticksPerFrame), queries[1..], ticksPerFrame)
  }

  /** The sample time handed out is a whole number of rings: never more than those
      the hardware finished and the phantoms, and exactly those if and only if no two
      queries were a ring or more apart. */
  lemma {:induction false} WrapsAreExact(k: Clock, frame: nat, queries: seq<Query>, ticksPerFrame: real)
    requires k.primed && k.lastPos == frame % RING && Advancing(frame, queries)
    ensures var r := Run(k, queries, ticksPerFrame);
            var rings := Laps(frame, queries) + Phantoms(frame, queries);
            r.primed && r.lastPos == Last(frame, queries) % RING && r.wraps - k.wraps <= rings &&
            (r.wraps - k.wraps == rings <==> NeverLate(frame, queries))
    decreases |queries|
  {
    if queries != [] {
      var q := queries[0];
      WrapsAreExact(Ask(k, q, ticksPerFrame), Reported(q), queries[1..], ticksPerFrame);
    }
  }

  predicate AllDown(queries: seq<Query>) {
    forall i :: 0 <= i < |queries| ==> queries[i].Down?
  }

  predicate AllUp(queries: seq<Query>) {
    forall i :: 0 <= i < |queries| ==> queries[i].Query?
  }

  /** However often it is queried, an outage counts one ring that was never finished,
      if it began off position 0, and none otherwise. */
  lemma {:induction false} OutageCountsOnce(k: Clock, frame: nat, queries: seq<Query>, ticksPerFrame: real)
    requires k.primed && k.lastPos == frame % RING && AllDown(queries) && queries != []
    ensures var r := Run(k, queries, ticksPerFrame);
            r.primed && r.lastPos == 0 && r.wraps - k.wraps == (if frame % RING > 0 then 1 else 0)
    decreases |queries|
  {
    var s := Ask(k, queries[0], ticksPerFrame);
    assert s.lastPos == 0 && s.wraps - k.wraps == (if frame % RING > 0 then 1 else 0);
    if |queries| == 1 {
      assert Run(s, queries[1..], ticksPerFrame) == s;
    } else {
      OutageCountsOnce(s, 0, queries[1..], ticksPerFrame);
    }
  }

  /** Without outages the rings are those of the frames. */
  lemma {:induction false} UpLaps(frame: nat, queries: seq<Query>)
    requires AllUp(queries)
    ensures Laps(frame, queries) == Last(frame, queries) / RING - frame / RING && Phantoms(frame, queries) == 0
    decreases |queries|
  {
    if queries != [] {
      UpLaps(queries[0].frame, queries[1..]);
    }
  }

  /** A phantom ring pushes the time handed out ahead: past now by seven eighths of
      what was left of the ring. */
  lemma PhantomRunsAhead(k: Clock, now: nat, ticksPerFrame: real)
    requires k.primed && k.lastPos > 0
    ensures var s := Ask(k, Down(now), ticksPerFrame);
            var left := k.wrapTime as real + RingTicks(ticksPerFrame) - now as real;
            s.wraps == k.wraps + 1 && 7.0 * left - 8.0 < 8.0 * (s.wrapTime - now) as real <= 7.0 * left
  {
    var s := Ask(k, Down(now), ticksPerFrame);
    assert Observe(now, 0, ticksPerFrame) == now;
    CorrectIsEighthStep(k.wrapTime, RingTicks(ticksPerFrame), now, s.wrapTime);
  }

  /** Between wraps the stored time stands; it only follows the observed wraps. */
  lemma {:induction false} TimeFollowsWraps(k: Clock, queries: seq<Query>, ticksPerFrame: real)
    requires k.primed
    ensures var r := Run(k, queries, ticksPerFrame);
            var o := Observations(k, queries, ticksPerFrame);
            r.wraps == k.wraps + |o| && r.wrapTime == Follow(k.wrapTime, RingTicks(ticksPerFrame), o)
    decreases |queries|
  {
    if queries != [] {
      var q := queries[0];
      var s := Ask(k, q, ticksPerFrame);
      var h := RingTicks(ticksPerFrame);
      TimeFollowsWraps(s, queries[1..], ticksPerFrame);
      var rest := Observations(s, queries[1..], ticksPerFrame);
      if Reported(q) % RING < k.lastPos {
        var o := Observe(q.now, Reported(q) % RING, ticksPerFrame);
        FollowAppends(k.wrapTime, h, [o], rest);
        assert [o][..0] == [];
      } else {
        assert [] + rest == rest;
      }
    }
  }

  lemma {:induction false} FollowAppends(stored: int, ringTicks: real, a: seq<int>, b: seq<int>)
    ensures Follow(stored, ringTicks, a + b) == Follow(Follow(stored, ringTicks, a), ringTicks, b)
    decreases |b|
  {
    if b == [] {
      assert a + b == a;
    } else {
      assert (a + b)[..|a + b| - 1] == a + b[..|b| - 1];
      FollowAppends(stored, ringTicks, a, b[..|b| - 1]);
    }
  }

  // ---------- the pair that is handed out ----------

  /** The DSP is up, and every query reads its position within `delay` of the time it takes for now. */
  ghost predicate Prompt(timeOf: nat -> real, queries: seq<Query>, delay: real) {
    forall i :: 0 <= i < |queries| ==>
      queries[i].Query? && Abs(queries[i].now as real - timeOf(queries[i].frame)) <= delay
  }

  function Limit(rate: real, delay: real): real {
    7.0 * Over(RING, rate) + Jitter(rate, delay) + 8.0
  }

  lemma LapsAreSteady(timeOf: nat -> real, start: nat, ticksPerFrame: real, rate: real)
    requires Steady(timeOf, ticksPerFrame, rate)
    ensures Abs(timeOf(start + RING) - timeOf(start) - RingTicks(ticksPerFrame)) <= Over(RING, rate)
  {
    assert SteadyAt(timeOf, start, RING, ticksPerFrame, rate);
  }

  lemma JitterIsInLimit(rate: real, delay: real)
    requires rate >= 0.0
    ensures Jitter(rate, delay) <= Limit(rate, delay)
  {
    AtMostALap(0, rate);
  }

  lemma LapsAdd(f: nat, g: nat, laps: int)
    requires laps == g / RING - f / RING
    ensures LapStart(f) + laps * RING == LapStart(g)
  {
    assert f == f / RING * RING + f % RING && g == g / RING * RING + g % RING;
  }

  /** How far the stored time is from the true time of its ring. */
  function Error(timeOf: nat -> real, k: Clock, frame: nat): real {
    Abs(k.wrapTime as real - timeOf(LapStart(frame)))
  }

  /** The clock stands where the hardware does. */
  predicate InStep(k: Clock, frame: nat) {
    k.primed && k.lastPos == frame % RING
  }

  /** One query of a running DSP: at a wrap the excess over the limit shrinks. */
  lemma QueryContracts(
    timeOf: nat -> real, k: Clock, frame: nat, q: Query, ticksPerFrame: real, rate: real, delay: real, excess: real)
    requires Steady(timeOf, ticksPerFrame, rate) && excess >= 0.0
    requires q.Query? && Abs(q.now as real - timeOf(q.frame)) <= delay
    requires InStep(k, frame) && frame <= q.frame < frame + RING
    requires Error(timeOf, k, frame) <= Limit(rate, delay) + excess
    ensures var s := Ask(k, q, ticksPerFrame);
            InStep(s, q.frame) && k.wraps <= s.wraps <= k.wraps + 1 &&
            Error(timeOf, s, q.frame) <= Limit(rate, delay) + Shrunk(excess, s.wraps - k.wraps)
  {
    if q.frame % RING < k.lastPos {
      var start := LapStart(frame);
      assert LapStart(q.frame) == start + RING;
      var observed := Observe(q.now, q.frame % RING, ticksPerFrame);
      BackDatingIsClose(timeOf, observed, q.now, start + RING, q.frame % RING, ticksPerFrame, rate, delay);
      LapsAreSteady(timeOf, start, ticksPerFrame, rate);
      CorrectionStep(k.wrapTime, RingTicks(ticksPerFrame), observed, timeOf(start), timeOf(start + RING),
                     Over(RING, rate), Jitter(rate, delay));
      assert Shrunk(excess, 1) == 7.0 / 8.0 * excess;
    } else {
      assert LapStart(q.frame) == LapStart(frame);
    }
  }

  /** From any error: each ring counted takes an eighth off what exceeds the limit. */
  lemma {:induction false} RunContracts(
    timeOf: nat -> real, k: Clock, frame: nat, queries: seq<Query>, ticksPerFrame: real, rate: real, delay: real,
    excess: real)
    requires Steady(timeOf, ticksPerFrame, rate) && Prompt(timeOf, queries, delay) && excess >= 0.0
    requires InStep(k, frame) && Advancing(frame, queries) && NeverLate(frame, queries)
    requires Error(timeOf, k, frame) <= Limit(rate, delay) + excess
    ensures var r := Run(k, queries, ticksPerFrame);
            r.wraps >= k.wraps &&
            Error(timeOf, r, Last(frame, queries)) <= Limit(rate, delay) + Shrunk(excess, r.wraps - k.wraps)
    decreases |queries|
  {
    if queries != [] {
      var q, rest := queries[0], queries[1..];
      var s := Ask(k, q, ticksPerFrame);
      var r := Run(s, rest, ticksPerFrame);
      QueryContracts(timeOf, k, frame, q, ticksPerFrame, rate, delay, excess);
      ShrunkAdds(excess, s.wraps - k.wraps, 0);
      RunContracts(timeOf, s, q.frame, rest, ticksPerFrame, rate, delay, Shrunk(excess, s.wraps - k.wraps));
      ShrunkAdds(excess, s.wraps - k.wraps, r.wraps - s.wraps);
      assert Run(k, queries, ticksPerFrame) == r && Last(frame, queries) == Last(q.frame, rest);
    }
  }

  /** The clock after the first query since a start. */
  function Prime(first: Query, ticksPerFrame: real): Clock {
    Ask(UNPRIMED, first, ticksPerFrame)
  }

  lemma PrimingIsClose(timeOf: nat -> real, q: Query, ticksPerFrame: real, rate: real, delay: real)
    requires Steady(timeOf, ticksPerFrame, rate)
    requires q.Query? && Abs(q.now as real - timeOf(q.frame)) <= delay
    ensures var k := Prime(q, ticksPerFrame);
            InStep(k, q.frame) && k.wraps == 0 && Error(timeOf, k, q.frame) <= Limit(rate, delay)
  {
    assert LapStart(q.frame) + q.frame % RING == q.frame;
    BackDatingIsClose(timeOf, Observe(q.now, q.frame % RING, ticksPerFrame), q.now, LapStart(q.frame), q.frame % RING,
                      ticksPerFrame, rate, delay);
    JitterIsInLimit(rate, delay);
  }

  /** The rings counted lead from the ring of `frame` to that of the last query. */
  lemma PairsCount(k: Clock, frame: nat, queries: seq<Query>, ticksPerFrame: real)
    requires InStep(k, frame) && AllUp(queries) && Advancing(frame, queries) && NeverLate(frame, queries)
    ensures LapStart(frame) + (Run(k, queries, ticksPerFrame).wraps - k.wraps) * RING == LapStart(Last(frame, queries))
  {
    WrapsAreExact(k, frame, queries, ticksPerFrame);
    UpLaps(frame, queries);
    LapsAdd(frame, Last(frame, queries), Run(k, queries, ticksPerFrame).wraps - k.wraps);
  }

  /** On the time line of the hardware since its last start, after an outage or not:
      for queries less than a ring apart the sample time counts its rings, and the host
      time with it is the true time of that very frame, up to the limit and whatever
      the excess at the beginning has shrunk to. */
  lemma PairsContract(
    timeOf: nat -> real, k: Clock, frame: nat, queries: seq<Query>, ticksPerFrame: real, rate: real, delay: real,
    excess: real)
    requires Steady(timeOf, ticksPerFrame, rate) && Prompt(timeOf, queries, delay) && excess >= 0.0
    requires InStep(k, frame) && Advancing(frame, queries) && NeverLate(frame, queries)
    requires Error(timeOf, k, frame) <= Limit(rate, delay) + excess
    ensures var r := Run(k, queries, ticksPerFrame);
            r.wraps >= k.wraps &&
            (var pair := LapStart(frame) + (r.wraps - k.wraps) * RING;
             Abs(r.wrapTime as real - timeOf(pair)) <= Limit(rate, delay) + Shrunk(excess, r.wraps - k.wraps))
  {
    RunContracts(timeOf, k, frame, queries, ticksPerFrame, rate, delay, excess);
    PairsCount(k, frame, queries, ticksPerFrame);
  }

  /** From a start under a running DSP to its first outage the limit alone will do. */
  lemma PairsAreClose(
    timeOf: nat -> real, first: Query, queries: seq<Query>, ticksPerFrame: real, rate: real, delay: real)
    requires Steady(timeOf, ticksPerFrame, rate) && Prompt(timeOf, queries, delay)
    requires first.Query? && Abs(first.now as real - timeOf(first.frame)) <= delay
    requires Advancing(first.frame, queries) && NeverLate(first.frame, queries)
    ensures var r := Run(Prime(first, ticksPerFrame), queries, ticksPerFrame);
            var pair := LapStart(first.frame) + r.wraps * RING;
            Abs(r.wrapTime as real - timeOf(pair)) <= Limit(rate, delay)
  {
    var k := Prime(first, ticksPerFrame);
    PrimingIsClose(timeOf, first, ticksPerFrame, rate, delay);
    PairsContract(timeOf, k, first.frame, queries, ticksPerFrame, rate, delay, 0.0);
    ShrunkAdds(0.0, Run(k, queries, ticksPerFrame).wraps - k.wraps, 0);
  }

  /** The plugin's global clock state. */
  class HardwareClock {
    const ticksPerFrame: real
    var wraps: nat
    var lastPos: nat
    var wrapHostTime: int
    var primed: bool
    var timeStamps: nat
    var anchorHostTime: nat

    function View(): Clock
      reads this
    {
      Clock(wraps, lastPos, wrapHostTime, primed)
    }

    constructor (ticksPerFrame: real)
      ensures this.ticksPerFrame == ticksPerFrame && View() == UNPRIMED && timeStamps == 0
    {
      this.ticksPerFrame := ticksPerFrame;
      wraps, lastPos, wrapHostTime, primed := 0, 0, 0, false;
      timeStamps, anchorHostTime := 0, 0;
    }

    /** The first client's start resets both clocks. */
    method StartIO(now: nat)
      modifies this
      ensures View() == UNPRIMED && timeStamps == 0 && anchorHostTime == now
    {
      wraps, lastPos, wrapHostTime, primed := 0, 0, 0, false;
      timeStamps, anchorHostTime := 0, now;
    }

    method GetZeroTimeStamp(now: nat, position: Position) returns (sampleTime: nat, hostTime: int)
      modifies this
      ensures position.At? ==>
                View() == Poll(old(View()), now, position.pos, ticksPerFrame) &&
                sampleTime == View().wraps * RING && hostTime == View().wrapTime &&
                timeStamps == old(timeStamps)
      ensures position.NoConnection? ==>
                View() == old(View()) && sampleTime == timeStamps * RING &&
                hostTime == Nominal(anchorHostTime, timeStamps, ticksPerFrame) &&
                timeStamps == AskNominal(anchorHostTime, old(timeStamps), now, ticksPerFrame)
      ensures anchorHostTime == old(anchorHostTime)
    {
      if position.NoConnection? {
        if Nominal(anchorHostTime, timeStamps + 1, ticksPerFrame) <= now {
          timeStamps := timeStamps + 1;
        }
        return timeStamps * RING, Nominal(anchorHostTime, timeStamps, ticksPerFrame);
      }
      var pos := position.pos % RING;
      var observed := Observe(now, pos, ticksPerFrame);
      if !primed {
        wrapHostTime := observed;
        primed := true;
      } else if pos < lastPos {
        wraps := wraps + 1;
        ghost var stored := wrapHostTime;
        wrapHostTime := CorrectWrap(wrapHostTime, RingTicks(ticksPerFrame), observed);
        CorrectIsEighthStep(stored, RingTicks(ticksPerFrame), observed, wrapHostTime);
      }
      lastPos := pos;
      sampleTime := wraps * RING;
      hostTime := wrapHostTime;
    }

    static method CorrectWrap(stored: int, ringTicks: real, observed: int) returns (corrected: int)
      ensures IsEighthStep(corrected, stored as real + ringTicks, observed)
    {
      var predicted := stored as real + ringTicks;
      var error := observed as real - predicted;
      corrected := (predicted + error / 8.0).Floor;
      CorrectIsEighthStep(stored, ringTicks, observed, corrected);
    }
  }
}
