/**
 The registers the driver shares with AppleHDA, and the writes both make to them.
 A stream descriptor has the layout of the Intel High Definition Audio
 Specification, sections 3.3.35 to 3.3.43; its control register is kept as the
 three bytes the driver writes one by one. A register's value is the set of its
 bits that are 1, so `x | 1 << k` is `x + {k}` and `x & ~(1 << k)` is `x - {k}`.
 */
module Registers {
  import opened RebuildControl

  type Word = set<nat>

  datatype Reg =
    | Ctl0(i: nat) | Ctl1(i: nat) | Ctl2(i: nat) | Sts(i: nat)
    | Cbl(i: nat) | Lvi(i: nat) | Fmt(i: nat) | Bdpl(i: nat) | Bdpu(i: nat)
    | Ppctl | SpibEn | SpibVal(i: nat) | Intctl | Em2 | Wakests
    | Adspic | Hipcctl

  type Cells = map<Reg, Word>

  /** A board, or what a load found of it: the first output descriptor's index and
      the capabilities present. */
  datatype Board = Board(sIdx: nat, pp: bool, spib: bool)

  const SRST: nat := 0
  const RUN: nat := 1
  const IOCE: nat := 2
  const STREAM_IRQS: Word := {2, 3, 4}
  const STATUS_BITS: Word := {2, 3, 4}

  function Rd(m: Cells, r: Reg): Word {
    if r in m then m[r] else {}
  }

  function SetBits(m: Cells, r: Reg, bits: Word): Cells {
    m[r := Rd(m, r) + bits]
  }

  function ClearBits(m: Cells, r: Reg, bits: Word): Cells {
    m[r := Rd(m, r) - bits]
  }

  /** The registers after writes that make `n` of `m`, if the controller decodes. */
  function Landed(live: bool, m: Cells, n: Cells): Cells {
    if live then n else m
  }

  /** What the driver makes of AppleHDA's first output descriptor. */
  function OutputBusy(m: Cells, b: Board, decodes: bool): Busy {
    if !decodes then NotDecoding
    else if RUN in Rd(m, Ctl0(b.sIdx)) then Running
    else if Rd(m, Cbl(b.sIdx)) != {} || Rd(m, Bdpl(b.sIdx)) != {} || Rd(m, Bdpu(b.sIdx)) != {} then Programmed
    else Quiet
  }

  // ---------- stream reset ----------

  function HardwareReset(m: Cells, i: nat): Cells {
    m[Ctl1(i) := {}][Sts(i) := {}][Cbl(i) := {}][Lvi(i) := {}][Fmt(i) := {}][Bdpl(i) := {}][Bdpu(i) := {}]
  }

  /** `ack`: does the controller enter the reset while the driver waits for it?
      A status bit is cleared by writing a one to it. */
  function ResetStream(m: Cells, i: nat, ack: bool): Cells {
    var m0 := m[Ctl0(i) := {}][Ctl2(i) := {}][Ctl0(i) := {SRST}];
    var m1 := if ack then HardwareReset(m0, i) else m0;
    ClearBits(m1[Ctl0(i) := {}], Sts(i), STATUS_BITS)
  }

  predicate OfStream(r: Reg, i: nat) {
    match r
    case Ctl0(j) => i == j
    case Ctl1(j) => i == j
    case Ctl2(j) => i == j
    case Sts(j) => i == j
    case Cbl(j) => i == j
    case Lvi(j) => i == j
    case Fmt(j) => i == j
    case Bdpl(j) => i == j
    case Bdpu(j) => i == j
    case _ => false
  }

  lemma ResetFrame(m: Cells, i: nat, ack: bool, r: Reg)
    requires !OfStream(r, i)
    ensures Rd(ResetStream(m, i, ack), r) == Rd(m, r)
  {
  }

  // ---------- the other driver ----------

  /** One write AppleHDA makes: it takes the bits of `own` from `val` and keeps the others. */
  datatype AppleWrite = AppleWrite(reg: Reg, own: Word, val: Word)

  function Apply(m: Cells, w: AppleWrite): Cells {
    m[w.reg := (Rd(m, w.reg) - w.own) + (w.val * w.own)]
  }

  function Interfere(m: Cells, ws: seq<AppleWrite>): Cells
    decreases |ws|
  {
    if ws == [] then m else Interfere(Apply(m, ws[0]), ws[1..])
  }

  /** The bits of `r` that some write of `ws` replaces. */
  function Replaced(ws: seq<AppleWrite>, r: Reg): Word
    decreases |ws|
  {
    if ws == [] then {} else (if ws[0].reg == r then ws[0].own else {}) + Replaced(ws[1..], r)
  }

  /** Those of them that end as 1. */
  function Forced(ws: seq<AppleWrite>, r: Reg): Word
    decreases |ws|
  {
    if ws == [] then {}
    else (if ws[0].reg == r then ws[0].val * ws[0].own else {}) - Replaced(ws[1..], r) + Forced(ws[1..], r)
  }

  lemma {:induction false} ForcedWithinReplaced(ws: seq<AppleWrite>, r: Reg)
    ensures Forced(ws, r) <= Replaced(ws, r)
    decreases |ws|
  {
    if ws != [] {
      ForcedWithinReplaced(ws[1..], r);
    }
  }

  /** AppleHDA's writes, register by register. */
  lemma {:induction false} Effect(m: Cells, ws: seq<AppleWrite>, r: Reg)
    ensures Rd(Interfere(m, ws), r) == Rd(m, r) - Replaced(ws, r) + Forced(ws, r)
    decreases |ws|
  {
    if ws != [] {
      Effect(Apply(m, ws[0]), ws[1..], r);
    }
  }

  lemma {:induction false} InterfereAppends(m: Cells, a: seq<AppleWrite>, b: seq<AppleWrite>)
    ensures Interfere(Interfere(m, a), b) == Interfere(m, a + b)
    decreases |a|
  {
    if a == [] {
      assert a + b == b;
    } else {
      assert (a + b)[0] == a[0] && (a + b)[1..] == a[1..] + b;
      InterfereAppends(Apply(m, a[0]), a[1..], b);
    }
  }

  /** What AppleHDA leaves in a register depends on nothing but that register. */
  lemma InterfereIsLocal(m: Cells, n: Cells, ws: seq<AppleWrite>, r: Reg)
    requires Rd(m, r) == Rd(n, r)
    ensures Rd(Interfere(m, ws), r) == Rd(Interfere(n, ws), r)
  {
    Effect(m, ws, r);
    Effect(n, ws, r);
  }

  /** Of a difference in `r`, exactly the bits nobody replaces survive AppleHDA's writes. */
  lemma DifferenceSurvives(m: Cells, n: Cells, ws: seq<AppleWrite>, r: Reg)
    ensures Rd(Interfere(m, ws), r) == Rd(Interfere(n, ws), r) <==>
            Rd(m, r) - Replaced(ws, r) == Rd(n, r) - Replaced(ws, r)
  {
    Effect(m, ws, r);
    Effect(n, ws, r);
    ForcedWithinReplaced(ws, r);
    var x, y, o, f := Rd(m, r), Rd(n, r), Replaced(ws, r), Forced(ws, r);
    assert (x - o + f) - o == x - o;
    assert (y - o + f) - o == y - o;
  }

  // ---------- in place ----------

  /** The mapped registers, written in place. */
  class RegisterFile {
    var cells: Cells

    constructor (m: Cells)
      ensures cells == m
    {
      cells := m;
    }

    method Write(r: Reg, v: Word)
      modifies this
      ensures cells == old(cells)[r := v]
    {
      cells := cells[r := v];
    }

    method Set(r: Reg, bits: Word)
      modifies this
      ensures cells == SetBits(old(cells), r, bits)
    {
      cells := cells[r := Rd(cells, r) + bits];
    }

    method Clear(r: Reg, bits: Word)
      modifies this
      ensures cells == ClearBits(old(cells), r, bits)
    {
      cells := cells[r := Rd(cells, r) - bits];
    }

    /** The controller's own reaction to a stream reset. */
    method EnterReset(i: nat)
      modifies this
      ensures cells == HardwareReset(old(cells), i)
    {
      cells := HardwareReset(cells, i);
    }

    method Reset(i: nat, ack: bool)
      modifies this
      ensures cells == ResetStream(old(cells), i, ack)
    {
      Write(Ctl0(i), {});
      Write(Ctl2(i), {});
      Write(Ctl0(i), {SRST});
      if ack {
        EnterReset(i);
      }
      Write(Ctl0(i), {});
      Clear(Sts(i), STATUS_BITS);
    }

    /** AppleHDA's writes while the driver waits. */
    method Wait(ws: seq<AppleWrite>)
      modifies this
      ensures cells == Interfere(old(cells), ws)
    {
      var k := 0;
      while k < |ws|
        invariant 0 <= k <= |ws|
        invariant Interfere(cells, ws[k..]) == Interfere(old(cells), ws)
      {
        assert ws[k..][0] == ws[k] && ws[k..][1..] == ws[k + 1..];
        cells := Apply(cells, ws[k]);
        k := k + 1;
      }
    }
  }
}
