/**
 The input filter: a one-pole DC blocker per channel, then gain and clipping. The
 engine calls it block by block, for several clients, over a ring; the filter
 must nevertheless act as one pass over one stream. Samples are reals here.
 */
module DcFilter {

  const R: real := 0.98822
  const RING: nat := 16384
  const SEED_PENDING: nat := 0xFFFF_FFFF

  /** One channel: the last input and the last output. */
  datatype Channel = Channel(x1: real, y1: real)

  const SILENT: Channel := Channel(0.0, 0.0)

  /** One sample; outputs smaller than `eps` are flushed to zero. */
  function Feed(s: Channel, x: real, eps: real): Channel {
    var y := x - s.x1 + R * s.y1;
    Channel(x, if -eps < y < eps then 0.0 else y)
  }

  /** The channel after a stream of samples; its `y1` is the last output. */
  function After(s: Channel, xs: seq<real>, eps: real): Channel
    decreases |xs|
  {
    if xs == [] then s else Feed(After(s, xs[..|xs| - 1], eps), xs[|xs| - 1], eps)
  }

  lemma {:induction false} AfterAppends(s: Channel, a: seq<real>, b: seq<real>, eps: real)
    ensures After(After(s, a, eps), b, eps) == After(s, a + b, eps)
    decreases |b|
  {
    if b == [] {
      assert a + b == a;
    } else {
      var front := b[..|b| - 1];
      assert (a + b)[..|a + b| - 1] == a + front && (a + b)[|a + b| - 1] == b[|b| - 1];
      AfterAppends(s, a, front, eps);
    }
  }

  lemma AfterOne(s: Channel, xs: seq<real>, x: real, eps: real)
    ensures After(s, xs + [x], eps) == Feed(After(s, xs, eps), x, eps)
  {
    assert (xs + [x])[..|xs|] == xs;
  }

  // ---------- bounds ----------

  function Abs(x: real): real {
    if x < 0.0 then -x else x
  }

  predicate AllWithin(xs: seq<real>, m: real) {
    forall i :: 0 <= i < |xs| ==> Abs(xs[i]) <= m
  }

  /** The estimate of the DC offset, x1 - y1, is an average of past inputs. */
  predicate Bounded(s: Channel, m: real) {
    Abs(s.x1) <= m && Abs(s.x1 - s.y1) <= m
  }

  lemma FeedStaysBounded(s: Channel, x: real, eps: real, m: real)
    requires Bounded(s, m) && Abs(x) <= m
    ensures Bounded(Feed(s, x, eps), m)
  {
    assert x - (x - s.x1 + R * s.y1) == (1.0 - R) * s.x1 + R * (s.x1 - s.y1);
  }

  /** Inputs within m give outputs within 2m, however long the stream. */
  lemma {:induction false} OutputsAreBounded(s: Channel, xs: seq<real>, eps: real, m: real)
    requires Bounded(s, m) && AllWithin(xs, m)
    ensures Bounded(After(s, xs, eps), m) && Abs(After(s, xs, eps).y1) <= 2.0 * m
    decreases |xs|
  {
    if xs != [] {
      var front := xs[..|xs| - 1];
      OutputsAreBounded(s, front, eps, m);
      FeedStaysBounded(After(s, front, eps), xs[|xs| - 1], eps, m);
    }
  }

  // ---------- settling ----------

  function Pow(b: real, n: nat): real {
    if n == 0 then 1.0 else b * Pow(b, n - 1)
  }

  lemma {:induction false} PowAdds(b: real, m: nat, n: nat)
    ensures Pow(b, m + n) == Pow(b, m) * Pow(b, n)
  {
    if m > 0 {
      PowAdds(b, m - 1, n);
      assert b * (Pow(b, m - 1) * Pow(b, n)) == (b * Pow(b, m - 1)) * Pow(b, n);
    }
  }

  lemma {:induction false} PowPositive(n: nat)
    ensures 0.0 < Pow(R, n) <= 1.0
  {
    if n > 0 {
      PowPositive(n - 1);
    }
  }

  lemma PowHalves(n: nat, bound: real, square: real)
    requires Pow(R, n) <= bound && bound * bound <= square
    ensures Pow(R, 2 * n) <= square
  {
    PowPositive(n);
    PowAdds(R, n, n);
    var p := Pow(R, n);
    assert p * p <= p * bound;
    assert p * bound <= bound * bound;
  }

  const SETTLE: nat := 4096

  /** `n` samples shrink any output far below the flush threshold. */
  ghost predicate Settles(n: nat) {
    Pow(R, n) <= 0.000_000_000_000_000_000_002
  }

  /** In what follows `n` stands for a constant, 1 or SETTLE: a variable keeps Pow
      from being unrolled 4096 times on a literal. */
  lemma DecayOver64(n: nat)
    requires n == 1
    ensures Pow(R, 64 * n) <= 0.46849
  {
    PowHalves(n, 0.98822, 0.97658);
    PowHalves(2 * n, 0.97658, 0.95371);
    PowHalves(4 * n, 0.95371, 0.90957);
    PowHalves(8 * n, 0.90957, 0.82732);
    PowHalves(16 * n, 0.82732, 0.68446);
    PowHalves(32 * n, 0.68446, 0.46849);
  }

  lemma DecayOverSettle(n: nat)
    requires Pow(R, n) <= 0.46849
    ensures Settles(64 * n)
  {
    PowHalves(n, 0.46849, 0.21949);
    PowHalves(2 * n, 0.21949, 0.04818);
    PowHalves(4 * n, 0.04818, 0.002322);
    PowHalves(8 * n, 0.002322, 0.000_005_392);
    PowHalves(16 * n, 0.000_005_392, 0.000_000_000_029_08);
    PowHalves(32 * n, 0.000_000_000_029_08, 0.000_000_000_000_000_000_002);
  }

  lemma SettleIsEnough(n: nat)
    requires n == SETTLE
    ensures Settles(n)
  {
    var one: nat := n / SETTLE;
    DecayOver64(one);
    DecayOverSettle(64 * one);
    assert 64 * (64 * one) == n;
  }

  predicate Constant(xs: seq<real>, x: real) {
    forall i :: 0 <= i < |xs| ==> xs[i] == x
  }

  function Times(a: real, b: real): real {
    a * b
  }

  lemma TimesR(p: real, q: real)
    ensures R * Times(p, q) == Times(R * p, q)
    ensures p >= 0.0 && q >= 0.0 ==> Times(p, q) >= 0.0
  {
  }

  /** On a constant input the output decays geometrically. */
  lemma {:induction false} ConstantDecays(s: Channel, xs: seq<real>, x: real, eps: real)
    requires s.x1 == x && Constant(xs, x)
    ensures After(s, xs, eps).x1 == x
    ensures Abs(After(s, xs, eps).y1) <= Times(Pow(R, |xs|), Abs(s.y1))
    decreases |xs|
  {
    if xs != [] {
      var front := xs[..|xs| - 1];
      ConstantDecays(s, front, x, eps);
      var t := After(s, front, eps);
      assert Abs(R * t.y1) == R * Abs(t.y1) <= R * Times(Pow(R, |front|), Abs(s.y1));
      TimesR(Pow(R, |front|), Abs(s.y1));
      assert Pow(R, |xs|) == R * Pow(R, |front|);
      PowPositive(|front|);
    }
  }

  lemma {:induction false} ZeroStays(s: Channel, xs: seq<real>, x: real, eps: real)
    requires s == Channel(x, 0.0) && Constant(xs, x) && eps > 0.0
    ensures After(s, xs, eps) == s
    decreases |xs|
  {
    if xs != [] {
      ZeroStays(s, xs[..|xs| - 1], x, eps);
    }
  }

  lemma DoubleAtMost(p: real, q: real)
    requires 0.0 <= p && 0.0 <= q <= 2.0
    ensures Times(p, q) <= 2.0 * p
  {
  }

  lemma SmallIsFlushed(u: Channel, x: real, eps: real)
    requires u.x1 == x && Abs(u.y1) < eps
    ensures Feed(u, x, eps) == Channel(x, 0.0)
  {
  }

  /** Once the first sample of a constant stretch is in, n more silence it. */
  lemma SilencedAfter(t: Channel, xs: seq<real>, x: real, eps: real, n: nat)
    requires t.x1 == x && Abs(t.y1) <= 2.0 && Constant(xs, x) && |xs| > n && Settles(n)
    requires eps >= 0.000_000_000_000_000_000_01
    ensures After(t, xs, eps) == Channel(x, 0.0)
  {
    var slow, tail := xs[..n], xs[n + 1..];
    assert |slow| == n && xs[n] == x;
    ConstantDecays(t, slow, x, eps);
    PowPositive(|slow|);
    DoubleAtMost(Pow(R, |slow|), Abs(t.y1));
    SmallIsFlushed(After(t, slow, eps), x, eps);
    AfterOne(t, slow, x, eps);
    ZeroStays(Channel(x, 0.0), tail, x, eps);
    AfterAppends(t, slow + [x], tail, eps);
    assert slow + [x] + tail == xs;
  }

  /** A constant input within 1 reaches exactly zero output within 4098 samples,
      and stays there, whatever came before. */
  lemma ConstantIsSilenced(s: Channel, xs: seq<real>, x: real, eps: real)
    requires Bounded(s, 1.0) && Abs(x) <= 1.0 && Constant(xs, x)
    requires eps >= 0.000_000_000_000_000_000_01
    requires |xs| >= SETTLE + 2
    ensures After(s, xs, eps) == Channel(x, 0.0)
  {
    var n: nat :| n == SETTLE;
    var rest := xs[1..];
    FeedStaysBounded(s, x, eps, 1.0);
    AfterOne(s, [], x, eps);
    SettleIsEnough(n);
    SilencedAfter(Feed(s, x, eps), rest, x, eps, n);
    AfterAppends(s, [x], rest, eps);
    assert xs[0] == x && [x] + rest == xs && [] + [x] == [x];
  }

  /** The bound of 2 is reached: a long run of -1 and then +1. */
  lemma BoundIsReached(xs: seq<real>, eps: real)
    requires eps >= 0.000_000_000_000_000_000_01 && eps < 1.0
    requires |xs| >= SETTLE + 2 && Constant(xs, -1.0)
    ensures After(SILENT, xs + [1.0], eps).y1 == 2.0
  {
    ConstantIsSilenced(SILENT, xs, -1.0, eps);
    AfterOne(SILENT, xs, 1.0, eps);
  }

  // ---------- the exact response ----------

  /** The changes of the input, each weighted with R to the power of its age. */
  function Weighted(prev: real, xs: seq<real>): real
    decreases |xs|
  {
    if xs == [] then 0.0 else Times(Pow(R, |xs| - 1), xs[0] - prev) + Weighted(xs[0], xs[1..])
  }

  /** What a one-pole high-pass with pole R answers to a stream, without any flush. */
  function Response(s: Channel, xs: seq<real>): real {
    Times(Pow(R, |xs|), s.y1) + Weighted(s.x1, xs)
  }

  function LastInput(prev: real, xs: seq<real>): real {
    if xs == [] then prev else xs[|xs| - 1]
  }

  lemma {:induction false} WeightedExtends(prev: real, xs: seq<real>, x: real)
    ensures Weighted(prev, xs + [x]) == R * Weighted(prev, xs) + (x - LastInput(prev, xs))
    decreases |xs|
  {
    if xs == [] {
      assert [x][1..] == [];
      assert xs + [x] == [x];
      assert Pow(R, 0) == 1.0;
    } else {
      assert (xs + [x])[0] == xs[0] && (xs + [x])[1..] == xs[1..] + [x];
      WeightedExtends(xs[0], xs[1..], x);
      TimesR(Pow(R, |xs| - 1), xs[0] - prev);
      assert Pow(R, |xs|) == R * Pow(R, |xs| - 1);
      assert LastInput(xs[0], xs[1..]) == LastInput(prev, xs);
    }
  }

  lemma ResponseExtends(s: Channel, xs: seq<real>, x: real)
    ensures Response(s, xs + [x]) == R * Response(s, xs) + (x - LastInput(s.x1, xs))
  {
    WeightedExtends(s.x1, xs, x);
    TimesR(Pow(R, |xs|), s.y1);
    assert Pow(R, |xs| + 1) == R * Pow(R, |xs|);
  }

  lemma {:induction false} InputIsRemembered(s: Channel, xs: seq<real>, eps: real)
    ensures After(s, xs, eps).x1 == LastInput(s.x1, xs)
    decreases |xs|
  {
    if xs != [] {
      InputIsRemembered(s, xs[..|xs| - 1], eps);
    }
  }

  /** For every stream: the output is the response, up to 85 flush thresholds. */
  lemma {:induction false} OutputIsTheResponse(s: Channel, xs: seq<real>, eps: real)
    requires eps > 0.0
    ensures (1.0 - R) * Abs(After(s, xs, eps).y1 - Response(s, xs)) <= eps
    decreases |xs|
  {
    if xs == [] {
      assert Pow(R, 0) == 1.0;
    } else {
      var front, x := xs[..|xs| - 1], xs[|xs| - 1];
      assert front + [x] == xs;
      OutputIsTheResponse(s, front, eps);
      InputIsRemembered(s, front, eps);
      ResponseExtends(s, front, x);
    }
  }

  /** And it is exactly that while the response stays clear of the threshold. */
  lemma {:induction false} UnflushedOutputIsExact(s: Channel, xs: seq<real>, eps: real)
    requires forall k :: 0 < k <= |xs| ==> Abs(Response(s, xs[..k])) >= eps
    ensures After(s, xs, eps).y1 == Response(s, xs)
    decreases |xs|
  {
    if xs == [] {
      assert Pow(R, 0) == 1.0;
    } else {
      var front, x := xs[..|xs| - 1], xs[|xs| - 1];
      assert front + [x] == xs && xs[..|xs|] == xs;
      forall k | 0 < k <= |front|
        ensures Abs(Response(s, front[..k])) >= eps
      {
        assert front[..k] == xs[..k];
      }
      UnflushedOutputIsExact(s, front, eps);
      InputIsRemembered(s, front, eps);
      ResponseExtends(s, front, x);
    }
  }

  /** From silence, the samples 1 and 1: the second output is the pole. */
  lemma StepResponse()
    ensures After(SILENT, [1.0, 1.0], KERNEL.eps).y1 == After(SILENT, [1.0, 1.0], PLUGIN.eps).y1 == 0.98822
  {
    forall eps: real | 0.0 < eps < 0.5
      ensures After(SILENT, [1.0, 1.0], eps).y1 == 0.98822
    {
      AfterOne(SILENT, [], 1.0, eps);
      AfterOne(SILENT, [1.0], 1.0, eps);
      assert [] + [1.0] == [1.0] && [1.0] + [1.0] == [1.0, 1.0];
    }
  }

  /** No output lies closer to zero than the flush threshold of its filter, unless it is zero. */
  lemma NoSmallOutputs(s: Channel, xs: seq<real>)
    requires xs != []
    ensures var y := After(s, xs, KERNEL.eps).y1; y == 0.0 || Abs(y) >= 0.000_000_000_000_001
    ensures var y := After(s, xs, PLUGIN.eps).y1; y == 0.0 || Abs(y) >= 0.000_000_000_000_000_000_01
  {
  }

  // ---------- blocks and clients ----------

  /** A user of the filter: its full scale and its flush threshold. */
  datatype Format = Format(full: real, eps: real)

  const KERNEL: Format := Format(2147483648.0, 0.000_000_000_000_001)
  const PLUGIN: Format := Format(2147483647.0, 0.000_000_000_000_000_000_01)

  function Clip(v: real): real {
    if v > 1.0 then 1.0 else if v < -1.0 then -1.0 else v
  }

  function Amplify(y: real, gain: real): real {
    Clip(y * gain)
  }

  /** What the client gets of a stretch of outputs: gain, then clipping. */
  function Shape(ys: seq<real>, gain: real): (vs: seq<real>)
    ensures |vs| == |ys|
    decreases |ys|
  {
    if ys == [] then [] else Shape(ys[..|ys| - 1], gain) + [Amplify(ys[|ys| - 1], gain)]
  }

  lemma {:induction false} ShapeAt(ys: seq<real>, gain: real, i: nat)
    requires i < |ys|
    ensures Shape(ys, gain)[i] == Amplify(ys[i], gain)
    decreases |ys|
  {
    if i < |ys| - 1 {
      ShapeAt(ys[..|ys| - 1], gain, i);
    }
  }

  lemma ClippedProduct(y: real, gain: real, w: real)
    requires w == y * gain
    ensures var v := Amplify(y, gain);
            (-1.0 <= w <= 1.0 ==> v == w) && (w > 1.0 ==> v == 1.0) && (w < -1.0 ==> v == -1.0)
  {
  }

  /** The client gets each output times the gain, as long as that is no more than full
      scale, and full scale with its sign beyond. */
  lemma GainIsFaithful(ys: seq<real>, gain: real, i: nat)
    requires i < |ys|
    ensures var v, w := Shape(ys, gain)[i], ys[i] * gain;
            (-1.0 <= w <= 1.0 ==> v == w) && (w > 1.0 ==> v == 1.0) && (w < -1.0 ==> v == -1.0)
  {
    ShapeAt(ys, gain, i);
    ClippedProduct(ys[i], gain, ys[i] * gain);
  }

  lemma ShapeExtends(ys: seq<real>, y: real, gain: real)
    ensures Shape(ys + [y], gain) == Shape(ys, gain) + [Amplify(y, gain)]
  {
    assert (ys + [y])[..|ys|] == ys;
  }

  /** A raw 32-bit sample as a fraction of full scale. */
  function Scale(raw: int, full: real): real
    requires full > 0.0
  {
    raw as real / full
  }

  /** 32-bit samples stay within full scale; the plugin's divisor lets the lowest
      one exceed it by less than a billionth. */
  lemma SamplesAreWithinScale(raw: int)
    requires -0x8000_0000 <= raw < 0x8000_0000
    ensures Abs(Scale(raw, KERNEL.full)) <= 1.0
    ensures Abs(Scale(raw, PLUGIN.full)) <= 1.0 <==> raw != -0x8000_0000
    ensures Abs(Scale(raw, PLUGIN.full)) <= 1.000_000_001
  {
  }

  datatype Filter = Filter(left: Channel, right: Channel, next: nat)

  /** A request: where it starts in the ring and what the ring holds there. */
  datatype Call = Call(first: nat, left: seq<real>, right: seq<real>)

  predicate WellFormed(c: Call) {
    |c.left| == |c.right| && c.first + |c.left| <= RING
  }

  /** The first request after a start decides where the stream begins. */
  function Expected(f: Filter, c: Call): nat {
    if f.next == SEED_PENDING then c.first else f.next
  }

  predicate Advances(f: Filter, c: Call) {
    c.first == Expected(f, c)
  }

  function Convert(f: Filter, c: Call): Filter {
    if Advances(f, c) then
      Filter(After(f.left, c.left, KERNEL.eps), After(f.right, c.right, KERNEL.eps), (c.first + |c.left|) % RING)
    else f
  }

  /** One pass of the filter over one stream: its outputs before the gain. */
  function OnePass(s: Channel, xs: seq<real>, eps: real): (ys: seq<real>)
    ensures |ys| == |xs|
    decreases |xs|
  {
    if xs == [] then [] else OnePass(s, xs[..|xs| - 1], eps) + [After(s, xs, eps).y1]
  }

  function Run(f: Filter, calls: seq<Call>): Filter
    decreases |calls|
  {
    if calls == [] then f else Run(Convert(f, calls[0]), calls[1..])
  }

  /** The stream the advancing requests read, and the outputs they get. */
  function Stream(f: Filter, calls: seq<Call>): seq<real>
    decreases |calls|
  {
    if calls == [] then []
    else (if Advances(f, calls[0]) then calls[0].left else []) + Stream(Convert(f, calls[0]), calls[1..])
  }

  function Heard(f: Filter, calls: seq<Call>): seq<real>
    decreases |calls|
  {
    if calls == [] then []
    else (if Advances(f, calls[0]) then OnePass(f.left, calls[0].left, KERNEL.eps) else []) +
         Heard(Convert(f, calls[0]), calls[1..])
  }

  lemma {:induction false} OnePassAppends(s: Channel, a: seq<real>, b: seq<real>, eps: real)
    ensures OnePass(s, a + b, eps) == OnePass(s, a, eps) + OnePass(After(s, a, eps), b, eps)
    decreases |b|
  {
    if b == [] {
      assert a + b == a;
    } else {
      var n := |b| - 1;
      OnePassAppends(s, a, b[..n], eps);
      assert (a + b)[..|a + b| - 1] == a + b[..n];
      AfterAppends(s, a, b, eps);
    }
  }

  /** Whatever requests come in whatever order, the advancing ones together get
      one pass of the filter over the frames they read, as does its state. */
  lemma {:induction false} BlocksAreOnePass(f: Filter, calls: seq<Call>)
    ensures Run(f, calls).left == After(f.left, Stream(f, calls), KERNEL.eps)
    ensures Heard(f, calls) == OnePass(f.left, Stream(f, calls), KERNEL.eps)
    decreases |calls|
  {
    if calls != [] {
      var c := calls[0];
      var g := Convert(f, c);
      var rest := Stream(g, calls[1..]);
      BlocksAreOnePass(g, calls[1..]);
      if Advances(f, c) {
        AfterAppends(f.left, c.left, rest, KERNEL.eps);
        OnePassAppends(f.left, c.left, rest, KERNEL.eps);
      } else {
        assert [] + rest == rest;
      }
    }
  }

  /** The channels do not mix: the right one is the left one of the mirrored calls. */
  function Mirror(c: Call): Call {
    Call(c.first, c.right, c.left)
  }

  function MirrorAll(calls: seq<Call>): seq<Call>
    decreases |calls|
  {
    if calls == [] then [] else [Mirror(calls[0])] + MirrorAll(calls[1..])
  }

  lemma {:induction false} ChannelsAreAlike(f: Filter, calls: seq<Call>)
    requires forall i :: 0 <= i < |calls| ==> WellFormed(calls[i])
    ensures var r := Run(f, calls);
            Run(Filter(f.right, f.left, f.next), MirrorAll(calls)) == Filter(r.right, r.left, r.next)
    decreases |calls|
  {
    if calls != [] {
      var g := Convert(f, calls[0]);
      var mirrored := MirrorAll(calls);
      assert mirrored[0] == Mirror(calls[0]) && mirrored[1..] == MirrorAll(calls[1..]);
      assert WellFormed(calls[0]);
      ChannelsAreAlike(g, calls[1..]);
      assert Convert(Filter(f.right, f.left, f.next), mirrored[0]) == Filter(g.right, g.left, g.next);
    }
  }

  /** Where the stream begins: where the filter stands, or, since an engine start, where
      the first request does. */
  function Origin(f: Filter, calls: seq<Call>): nat {
    if f.next == SEED_PENDING && calls != [] then calls[0].first else f.next
  }

  /** Where the stream stands: from its origin the advancing requests follow each other
      round the ring without a gap. */
  lemma {:induction false} StreamIsContiguous(f: Filter, calls: seq<Call>)
    requires f.next < RING || (f.next == SEED_PENDING && calls != [])
    requires forall i :: 0 <= i < |calls| ==> WellFormed(calls[i])
    ensures Run(f, calls).next == (Origin(f, calls) + |Stream(f, calls)|) % RING
    decreases |calls|
  {
    if calls != [] {
      assert WellFormed(calls[0]);
      StreamIsContiguous(Convert(f, calls[0]), calls[1..]);
    }
  }

  // ---------- the engine's conversion ----------

  /** Channel `ch` of `n` frames of the ring from frame `first` on, in place order. */
  function Samples(ring: seq<int>, first: nat, n: nat, ch: nat): seq<real>
    requires |ring| == 2 * RING && first + n <= RING && ch < 2
  {
    seq(n, i requires 0 <= i < n => Scale(ring[2 * (first + i) + ch], KERNEL.full))
  }

  function Request(ring: seq<int>, first: nat, n: nat): Call
    requires |ring| == 2 * RING && first + n <= RING
  {
    Call(first, Samples(ring, first, n, 0), Samples(ring, first, n, 1))
  }

  /** The same from `first` on round the ring. */
  function RingSamples(ring: seq<int>, first: nat, n: nat, ch: nat, full: real): seq<real>
    requires |ring| == 2 * RING && ch < 2 && full > 0.0
  {
    seq(n, i requires 0 <= i < n => Scale(ring[2 * ((first + i) % RING) + ch], full))
  }

  /** The client's buffer begins with the two channels, frame by frame. */
  predicate Interleaved(dst: seq<real>, a: seq<real>, b: seq<real>) {
    |a| == |b| && 2 * |a| <= |dst| && (forall k :: 0 <= k < |a| ==> dst[2 * k] == a[k] && dst[2 * k + 1] == b[k])
  }

  lemma InterleavedExtends(dst: seq<real>, a: seq<real>, b: seq<real>, v: real, w: real)
    requires Interleaved(dst, a, b) && 2 * |a| + 2 <= |dst|
    ensures Interleaved(dst[2 * |a| := v][2 * |a| + 1 := w], a + [v], b + [w])
  {
  }

  /** Two channels with i frames done: their states and the client's buffer. */
  ghost predicate Filtered(
    left0: Channel, right0: Channel, xs: seq<real>, ys: seq<real>, i: nat, fmt: Format, gain: real,
    left: Channel, right: Channel, dst: seq<real>)
  {
    && i <= |xs| && i <= |ys|
    && left == After(left0, xs[..i], fmt.eps) && right == After(right0, ys[..i], fmt.eps)
    && Interleaved(dst, Shape(OnePass(left0, xs[..i], fmt.eps), gain), Shape(OnePass(right0, ys[..i], fmt.eps), gain))
  }

  lemma PassExtends(s: Channel, xs: seq<real>, i: nat, eps: real, gain: real)
    requires i < |xs|
    ensures var u := Feed(After(s, xs[..i], eps), xs[i], eps);
            After(s, xs[..i + 1], eps) == u &&
            Shape(OnePass(s, xs[..i + 1], eps), gain) == Shape(OnePass(s, xs[..i], eps), gain) + [Amplify(u.y1, gain)]
  {
    assert xs[..i + 1][..i] == xs[..i];
    ShapeExtends(OnePass(s, xs[..i], eps), After(s, xs[..i + 1], eps).y1, gain);
  }

  lemma FilteredExtends(left0: Channel, right0: Channel, xs: seq<real>, ys: seq<real>, i: nat, fmt: Format, gain: real,
                        left: Channel, right: Channel, dst: seq<real>)
    requires Filtered(left0, right0, xs, ys, i, fmt, gain, left, right, dst)
    requires i < |xs| && i < |ys| && 2 * i + 1 < |dst|
    ensures var u, v := Feed(left, xs[i], fmt.eps), Feed(right, ys[i], fmt.eps);
            Filtered(left0, right0, xs, ys, i + 1, fmt, gain, u, v,
                     dst[2 * i := Amplify(u.y1, gain)][2 * i + 1 := Amplify(v.y1, gain)])
  {
    var u, v := Feed(left, xs[i], fmt.eps), Feed(right, ys[i], fmt.eps);
    PassExtends(left0, xs, i, fmt.eps, gain);
    PassExtends(right0, ys, i, fmt.eps, gain);
    var a, b := Shape(OnePass(left0, xs[..i], fmt.eps), gain), Shape(OnePass(right0, ys[..i], fmt.eps), gain);
    InterleavedExtends(dst, a, b, Amplify(u.y1, gain), Amplify(v.y1, gain));
  }

  method ApplyGain(y: real, gain: real) returns (v: real)
    ensures v == Amplify(y, gain)
  {
    v := y * gain;
    if v > 1.0 {
      v := 1.0;
    }
    if v < -1.0 {
      v := -1.0;
    }
  }

  /** One sample of one channel: the channel after it and the client's value. */
  method FeedSample(s: Channel, raw: int, fmt: Format, gain: real) returns (t: Channel, v: real)
    requires fmt.full > 0.0
    ensures t == Feed(s, Scale(raw, fmt.full), fmt.eps)
    ensures v == Amplify(t.y1, gain)
  {
    var x := raw as real / fmt.full;
    var y := x - s.x1 + R * s.y1;
    if y < fmt.eps && y > -fmt.eps {
      y := 0.0;
    }
    t := Channel(x, y);
    v := ApplyGain(y, gain);
  }

  method FilterFrame(left: Channel, right: Channel, l: int, r: int, fmt: Format, gain: real, dst: array<real>, i: nat)
    returns (left': Channel, right': Channel)
    requires 2 * i + 1 < dst.Length && fmt.full > 0.0
    modifies dst
    ensures left' == Feed(left, Scale(l, fmt.full), fmt.eps) && right' == Feed(right, Scale(r, fmt.full), fmt.eps)
    ensures dst[..] == old(dst[..])[2 * i := Amplify(left'.y1, gain)][2 * i + 1 := Amplify(right'.y1, gain)]
  {
    var v, w;
    left', v := FeedSample(left, l, fmt, gain);
    right', w := FeedSample(right, r, fmt, gain);
    dst[2 * i] := v;
    dst[2 * i + 1] := w;
  }

  /** Frame i of a block, after i frames are done. */
  method FilterNext(left: Channel, right: Channel, l: int, r: int, fmt: Format, gain: real, dst: array<real>, i: nat,
                    ghost left0: Channel, ghost right0: Channel, ghost xs: seq<real>, ghost ys: seq<real>)
    returns (left': Channel, right': Channel)
    requires 2 * i + 1 < dst.Length && fmt.full > 0.0 && i < |xs| && i < |ys|
    requires Filtered(left0, right0, xs, ys, i, fmt, gain, left, right, dst[..])
    requires xs[i] == Scale(l, fmt.full) && ys[i] == Scale(r, fmt.full)
    modifies dst
    ensures Filtered(left0, right0, xs, ys, i + 1, fmt, gain, left', right', dst[..])
  {
    FilteredExtends(left0, right0, xs, ys, i, fmt, gain, left, right, dst[..]);
    left', right' := FilterFrame(left, right, l, r, fmt, gain, dst, i);
  }

  lemma BlockStarts(
    left: Channel, right: Channel, xs: seq<real>, ys: seq<real>, fmt: Format, gain: real, dst: seq<real>)
    ensures Filtered(left, right, xs, ys, 0, fmt, gain, left, right, dst)
  {
  }

  lemma BlockEnds(left0: Channel, right0: Channel, xs: seq<real>, ys: seq<real>, n: nat, fmt: Format, gain: real,
                  left: Channel, right: Channel, dst: seq<real>)
    requires Filtered(left0, right0, xs, ys, n, fmt, gain, left, right, dst) && |xs| == |ys| == n
    ensures left == After(left0, xs, fmt.eps) && right == After(right0, ys, fmt.eps) &&
            Interleaved(dst, Shape(OnePass(left0, xs, fmt.eps), gain), Shape(OnePass(right0, ys, fmt.eps), gain))
  {
    assert xs[..n] == xs && ys[..n] == ys;
  }

  /** `xs` is what channel `ch` of the ring holds from `first` on. */
  ghost predicate Reads(xs: seq<real>, ring: seq<int>, first: nat, n: nat, ch: nat, full: real)
    requires |ring| == 2 * RING && ch < 2 && full > 0.0
  {
    |xs| == n && forall i :: 0 <= i < n ==> xs[i] == Scale(ring[2 * ((first + i) % RING) + ch], full)
  }

  lemma RingSamplesRead(ring: seq<int>, first: nat, n: nat, ch: nat, full: real)
    requires |ring| == 2 * RING && ch < 2 && full > 0.0
    ensures Reads(RingSamples(ring, first, n, ch, full), ring, first, n, ch, full)
  {
  }

  /** The sample loop: both channels of n frames, interleaved into the client's buffer. */
  method FilterLoop(left0: Channel, right0: Channel, ring: seq<int>, dst: array<real>,
                    first: nat, n: nat, fmt: Format, gain: real, ghost xs: seq<real>, ghost ys: seq<real>)
    returns (left: Channel, right: Channel)
    requires |ring| == 2 * RING && dst.Length >= 2 * n && fmt.full > 0.0
    requires Reads(xs, ring, first, n, 0, fmt.full) && Reads(ys, ring, first, n, 1, fmt.full)
    modifies dst
    ensures Filtered(left0, right0, xs, ys, n, fmt, gain, left, right, dst[..])
  {
    left, right := left0, right0;
    BlockStarts(left, right, xs, ys, fmt, gain, dst[..]);
    var i := 0;
    while i < n
      invariant 0 <= i <= n
      invariant Filtered(left0, right0, xs, ys, i, fmt, gain, left, right, dst[..])
    {
      var frame := (first + i) % RING;
      var l, r := ring[2 * frame], ring[2 * frame + 1];
      left, right := FilterNext(left, right, l, r, fmt, gain, dst, i, left0, right0, xs, ys);
      i := i + 1;
    }
  }

  /** A whole block of the ring. */
  method FilterBlock(left0: Channel, right0: Channel, ring: seq<int>, dst: array<real>,
                     first: nat, n: nat, fmt: Format, gain: real) returns (left: Channel, right: Channel)
    requires |ring| == 2 * RING && dst.Length >= 2 * n && fmt.full > 0.0
    modifies dst
    ensures var xs, ys := RingSamples(ring, first, n, 0, fmt.full), RingSamples(ring, first, n, 1, fmt.full);
            left == After(left0, xs, fmt.eps) && right == After(right0, ys, fmt.eps) &&
            Interleaved(dst[..], Shape(OnePass(left0, xs, fmt.eps), gain), Shape(OnePass(right0, ys, fmt.eps), gain))
  {
    ghost var xs, ys := RingSamples(ring, first, n, 0, fmt.full), RingSamples(ring, first, n, 1, fmt.full);
    RingSamplesRead(ring, first, n, 0, fmt.full);
    RingSamplesRead(ring, first, n, 1, fmt.full);
    left, right := FilterLoop(left0, right0, ring, dst, first, n, fmt, gain, xs, ys);
    BlockEnds(left0, right0, xs, ys, n, fmt, gain, left, right, dst[..]);
  }

  lemma ScaleBack(raw: int, full: real)
    requires full > 0.0
    ensures Scale(raw, full) * full == raw as real
  {
  }

  /** The request holds what the ring does: its left channel the even places, its right
      one the odd, as fractions of two to the 31. */
  lemma RequestReadsTheRing(ring: seq<int>, first: nat, n: nat, i: nat)
    requires |ring| == 2 * RING && first + n <= RING && i < n
    ensures var c := Request(ring, first, n);
            c.first == first && |c.left| == |c.right| == n &&
            c.left[i] * 2147483648.0 == ring[2 * (first + i)] as real &&
            c.right[i] * 2147483648.0 == ring[2 * (first + i) + 1] as real
  {
    ScaleBack(ring[2 * (first + i)], KERNEL.full);
    ScaleBack(ring[2 * (first + i) + 1], KERNEL.full);
  }

  /** A plugin read holds what the ring does round its seam. */
  lemma PluginReadsTheRing(ring: seq<int>, first: nat, n: nat, i: nat)
    requires |ring| == 2 * RING && i < n
    ensures var xs, ys := RingSamples(ring, first, n, 0, PLUGIN.full), RingSamples(ring, first, n, 1, PLUGIN.full);
            xs[i] * 2147483647.0 == ring[2 * ((first + i) % 16384)] as real &&
            ys[i] * 2147483647.0 == ring[2 * ((first + i) % 16384) + 1] as real
  {
    ScaleBack(ring[2 * ((first + i) % RING)], PLUGIN.full);
    ScaleBack(ring[2 * ((first + i) % RING) + 1], PLUGIN.full);
  }

  /** Inside one lap, ring order is place order. */
  lemma OneLap(ring: seq<int>, first: nat, n: nat, ch: nat)
    requires |ring| == 2 * RING && first + n <= RING && ch < 2
    ensures RingSamples(ring, first, n, ch, KERNEL.full) == Samples(ring, first, n, ch)
  {
  }

  /** The client's buffer holds the filtered request, both channels, after gain and clipping. */
  ghost predicate Serves(f: Filter, c: Call, gain: real, dst: seq<real>) {
    var left, right := OnePass(f.left, c.left, KERNEL.eps), OnePass(f.right, c.right, KERNEL.eps);
    Interleaved(dst, Shape(left, gain), Shape(right, gain))
  }

  /** Serves a request from a filter state, without moving that state. */
  method FilterRequest(f: Filter, ring: seq<int>, dst: array<real>, first: nat, n: nat, gain: real)
    returns (left: Channel, right: Channel)
    requires |ring| == 2 * RING && first + n <= RING && dst.Length >= 2 * n
    modifies dst
    ensures var c := Request(ring, first, n);
            left == After(f.left, c.left, KERNEL.eps) && right == After(f.right, c.right, KERNEL.eps) &&
            Serves(f, c, gain, dst[..])
  {
    OneLap(ring, first, n, 0);
    OneLap(ring, first, n, 1);
    left, right := FilterBlock(f.left, f.right, ring, dst, first, n, KERNEL, gain);
  }

  class InputFilter {
    var dcX1: seq<real>
    var dcY1: seq<real>
    var dcNextFrame: nat

    predicate Valid()
      reads this
    {
      |dcX1| == 2 && |dcY1| == 2
    }

    function View(): Filter
      requires Valid()
      reads this
    {
      Filter(Channel(dcX1[0], dcY1[0]), Channel(dcX1[1], dcY1[1]), dcNextFrame)
    }

    /** The state at an engine start. */
    constructor ()
      ensures Valid() && View() == Filter(SILENT, SILENT, SEED_PENDING)
    {
      dcX1, dcY1, dcNextFrame := [0.0, 0.0], [0.0, 0.0], SEED_PENDING;
    }

    method Keep(left: Channel, right: Channel, next: nat)
      modifies this
      ensures Valid() && View() == Filter(left, right, next)
    {
      dcX1, dcY1 := [left.x1, right.x1], [left.y1, right.y1];
      dcNextFrame := next;
    }

    method ConvertInputSamples(ring: seq<int>, dst: array<real>, first: nat, n: nat, gain: real)
      requires Valid() && |ring| == 2 * RING && first + n <= RING && dst.Length >= 2 * n
      modifies this, dst
      ensures Valid()
      ensures View() == Convert(old(View()), Request(ring, first, n))
      ensures Serves(old(View()), Request(ring, first, n), gain, dst[..])
    {
      ghost var f, c := View(), Request(ring, first, n);
      assert |c.left| == n;
      if dcNextFrame == SEED_PENDING {
        dcNextFrame := first;
      }
      var contiguous := first == dcNextFrame;
      assert contiguous <==> Advances(f, c);
      var left, right := FilterRequest(View(), ring, dst, first, n, gain);
      if contiguous {
        Keep(left, right, (first + n) % RING);
      }
      assert View() == Convert(f, c);
    }
  }

  // ---------- the plugin's conversion ----------

  /** A block over the seam of the ring is the two blocks on either side of it. */
  lemma SeamSplits(ring: seq<int>, first: nat, n: nat, ch: nat, full: real)
    requires |ring| == 2 * RING && ch < 2 && first < RING <= first + n && full > 0.0
    ensures RingSamples(ring, first, n, ch, full) ==
            RingSamples(ring, first, RING - first, ch, full) + RingSamples(ring, 0, n - (RING - first), ch, full)
  {
  }

  /** So one read over the seam filters exactly as two reads split at the seam. */
  lemma SplitReadsFilterAlike(s: Channel, ring: seq<int>, first: nat, n: nat, ch: nat, fmt: Format)
    requires |ring| == 2 * RING && ch < 2 && first < RING <= first + n && fmt.full > 0.0
    ensures var a := RingSamples(ring, first, RING - first, ch, fmt.full);
            var b := RingSamples(ring, 0, n - (RING - first), ch, fmt.full);
            var whole := RingSamples(ring, first, n, ch, fmt.full);
            After(s, whole, fmt.eps) == After(After(s, a, fmt.eps), b, fmt.eps) &&
            OnePass(s, whole, fmt.eps) == OnePass(s, a, fmt.eps) + OnePass(After(s, a, fmt.eps), b, fmt.eps)
  {
    var a := RingSamples(ring, first, RING - first, ch, fmt.full);
    var b := RingSamples(ring, 0, n - (RING - first), ch, fmt.full);
    SeamSplits(ring, first, n, ch, fmt.full);
    AfterAppends(s, a, b, fmt.eps);
    OnePassAppends(s, a, b, fmt.eps);
  }

  /** The plugin's filter has no guard: every read moves it on, wherever it reads. */
  class PluginFilter {
    var dcX1: seq<real>
    var dcY1: seq<real>

    predicate Valid()
      reads this
    {
      |dcX1| == 2 && |dcY1| == 2
    }

    constructor ()
      ensures Valid() && dcX1 == dcY1 == [0.0, 0.0]
    {
      dcX1, dcY1 := [0.0, 0.0], [0.0, 0.0];
    }

    method ReadInput(connected: bool, ring: seq<int>, dst: array<real>, sampleTime: nat, n: nat, gain: real)
      requires Valid() && |ring| == 2 * RING && dst.Length >= 2 * n
      modifies this, dst
      ensures Valid()
      ensures !connected ==> dcX1 == old(dcX1) && dcY1 == old(dcY1) && forall k :: 0 <= k < 2 * n ==> dst[k] == 0.0
      ensures connected ==>
                var first := sampleTime % RING;
                var xs, ys := RingSamples(ring, first, n, 0, PLUGIN.full), RingSamples(ring, first, n, 1, PLUGIN.full);
                var left, right := Channel(old(dcX1[0]), old(dcY1[0])), Channel(old(dcX1[1]), old(dcY1[1]));
                Channel(dcX1[0], dcY1[0]) == After(left, xs, PLUGIN.eps) &&
                Channel(dcX1[1], dcY1[1]) == After(right, ys, PLUGIN.eps) &&
                Interleaved(dst[..], Shape(OnePass(left, xs, PLUGIN.eps), gain),
                            Shape(OnePass(right, ys, PLUGIN.eps), gain))
    {
      if !connected {
        forall k | 0 <= k < 2 * n {
          dst[k] := 0.0;
        }
        return;
      }
      var left, right := FilterBlock(Channel(dcX1[0], dcY1[0]), Channel(dcX1[1], dcY1[1]), ring, dst,
                                     sampleTime % RING, n, PLUGIN, gain);
      dcX1, dcY1 := [left.x1, right.x1], [left.y1, right.y1];
    }
  }
}
