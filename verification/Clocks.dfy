/**
  The NPU part of the RK3588 clock unit. A register is the set of its one bits; its
  upper half is a write mask, so a write touches only the bits its mask names.
*/
module ClockRegs {
  type Reg = set<nat>

  function MaskedWrite(reg: Reg, mask: Reg, data: Reg): Reg { (reg - mask) + (data * mask) }

  /** Bits `lo .. lo + width` of a register as a number. */
  function Field(reg: Reg, lo: nat, width: nat): nat
    decreases width
  {
    if width == 0 then 0 else (if lo in reg then 1 else 0) + 2 * Field(reg, lo + 1, width - 1)
  }

  /** A number placed at bits `lo .. lo + width`. */
  function Placed(n: nat, lo: nat, width: nat): (r: Reg)
    ensures forall i :: i in r ==> lo <= i < lo + width
    decreases width
  {
    if width == 0 then {} else (if n % 2 == 1 then {lo} else {}) + Placed(n / 2, lo + 1, width - 1)
  }

  function Span(lo: nat, width: nat): (r: Reg)
    ensures forall i :: i in r <==> lo <= i < lo + width
    decreases width
  {
    if width == 0 then {} else {lo} + Span(lo + 1, width - 1)
  }

  function Pow2(w: nat): nat { if w == 0 then 1 else 2 * Pow2(w - 1) }

  /** A field depends on its own bits only. */
  lemma {:induction false} FieldLocal(a: Reg, b: Reg, lo: nat, width: nat)
    requires forall i :: lo <= i < lo + width ==> (i in a <==> i in b)
    ensures Field(a, lo, width) == Field(b, lo, width)
    decreases width
  {
    if width > 0 { FieldLocal(a, b, lo + 1, width - 1); }
  }

  lemma {:induction false} FieldPlaced(n: nat, lo: nat, width: nat)
    requires n < Pow2(width)
    ensures Field(Placed(n, lo, width), lo, width) == n
    decreases width
  {
    if width > 0 {
      FieldPlaced(n / 2, lo + 1, width - 1);
      FieldLocal(Placed(n, lo, width), Placed(n / 2, lo + 1, width - 1), lo + 1, width - 1);
    }
  }

  /** Writing one field leaves every disjoint one alone. */
  lemma WriteElsewhere(reg: Reg, mask: Reg, data: Reg, lo: nat, width: nat)
    requires mask !! Span(lo, width)
    ensures Field(MaskedWrite(reg, mask, data), lo, width) == Field(reg, lo, width)
  {
    forall i | lo <= i < lo + width ensures i in MaskedWrite(reg, mask, data) <==> i in reg {
      assert i in Span(lo, width);
    }
    FieldLocal(MaskedWrite(reg, mask, data), reg, lo, width);
  }

  lemma WriteField(reg: Reg, mask: Reg, data: Reg, n: nat, lo: nat, width: nat)
    requires n < Pow2(width) && Span(lo, width) <= mask
    requires forall i :: lo <= i < lo + width ==> (i in data <==> i in Placed(n, lo, width))
    ensures Field(MaskedWrite(reg, mask, data), lo, width) == n
  {
    forall i | lo <= i < lo + width ensures i in MaskedWrite(reg, mask, data) <==> i in Placed(n, lo, width) {
      assert i in Span(lo, width);
    }
    FieldLocal(MaskedWrite(reg, mask, data), Placed(n, lo, width), lo, width);
    FieldPlaced(n, lo, width);
  }
}

/** Which clocks there are, where their fields are and how a rate is chosen. */
module Clocks {
  import opened ClockRegs
  import opened Options

  const MAX_RATE: nat := 0xFFFF_FFFF_FFFF_FFFF
  const DIVIDERS: nat := 32

  datatype Clock = HclkRoot | Dsu0 | PclkRoot | Cm0Root | Cm0Rtc | TimerRoot

  datatype Regs = Regs(con73: Reg, con74: Reg)

  function Parents(c: Clock): (r: seq<nat>)
    ensures |r| >= 2 && forall i :: 0 <= i < |r| ==> r[i] >= DIVIDERS
  {
    match c
    case HclkRoot => [200_000_000, 100_000_000, 50_000_000, 24_000_000]
    case Dsu0 => [1188_000_000, 1000_000_000, 786_432_000, 850_000_000, 702_000_000]
    case PclkRoot => [100_000_000, 50_000_000, 24_000_000]
    case Cm0Root => [400_000_000, 200_000_000, 100_000_000, 24_000_000]
    case Cm0Rtc => [24_000_000, 32_768]
    case TimerRoot => [24_000_000, 100_000_000]
  }

  /** Selector position and width, divider position and width (0 if it has none). */
  function Layout(c: Clock): (nat, nat, nat, nat) {
    match c
    case HclkRoot => (0, 2, 0, 0)
    case Dsu0 => (7, 3, 2, 5)
    case PclkRoot => (1, 2, 0, 0)
    case Cm0Root => (5, 2, 0, 0)
    case Cm0Rtc => (12, 1, 7, 5)
    case TimerRoot => (3, 1, 0, 0)
  }

  predicate Divides(c: Clock) { c.Dsu0? || c.Cm0Rtc? }

  predicate In73(c: Clock) { c.HclkRoot? || c.Dsu0? }

  function RegOf(s: Regs, c: Clock): Reg { if In73(c) then s.con73 else s.con74 }

  function WithReg(s: Regs, c: Clock, r: Reg): Regs { if In73(c) then s.(con73 := r) else s.(con74 := r) }

  function Mask(c: Clock): Reg {
    var (m, mw, d, dw) := Layout(c);
    Span(m, mw) + Span(d, dw)
  }

  function Data(c: Clock, mux: nat, div: nat): Reg {
    var (m, mw, d, dw) := Layout(c);
    Placed(mux, m, mw) + Placed(div, d, dw)
  }

  /** The rate a clock runs at; an unused selector value has none. */
  function GetRate(s: Regs, c: Clock): Option<nat> {
    var (m, mw, d, dw) := Layout(c);
    var mux := Field(RegOf(s, c), m, mw);
    if mux >= |Parents(c)| then None else Some(Parents(c)[mux] / (Field(RegOf(s, c), d, dw) + 1))
  }

  function Program(s: Regs, c: Clock, mux: nat, div: nat): Regs {
    WithReg(s, c, MaskedWrite(RegOf(s, c), Mask(c), Data(c, mux, div)))
  }

  /** Fields of different clocks never share a bit. */
  lemma DisjointFields(c: Clock, o: Clock)
    requires c != o && In73(c) == In73(o)
    ensures Mask(c) !! Span(Layout(o).0, Layout(o).1) && Mask(c) !! Span(Layout(o).2, Layout(o).3)
  {
  }

  lemma ProgramOthers(s: Regs, c: Clock, mux: nat, div: nat, o: Clock)
    requires o != c
    ensures GetRate(Program(s, c, mux, div), o) == GetRate(s, o)
  {
    hide Mask, Data, MaskedWrite, Field, Parents, Span;
    if In73(c) == In73(o) {
      DisjointFields(c, o);
      var (m, mw, d, dw) := Layout(o);
      WriteElsewhere(RegOf(s, c), Mask(c), Data(c, mux, div), m, mw);
      WriteElsewhere(RegOf(s, c), Mask(c), Data(c, mux, div), d, dw);
    }
  }

  predicate Encodable(c: Clock, mux: nat, div: nat) { mux < |Parents(c)| && (if Divides(c) then div < DIVIDERS else div == 0) }

  lemma LayoutFits(c: Clock, mux: nat, div: nat)
    requires Encodable(c, mux, div)
    ensures var (m, mw, d, dw) := Layout(c); mux < Pow2(mw) && div < Pow2(dw) && Span(m, mw) !! Span(d, dw)
  {
    assert Pow2(5) == 32 && Pow2(3) == 8 && Pow2(2) == 4;
  }

  lemma ProgramSelf(s: Regs, c: Clock, mux: nat, div: nat)
    requires Encodable(c, mux, div)
    ensures GetRate(Program(s, c, mux, div), c) == Some(Parents(c)[mux] / (div + 1))
  {
    hide Layout, Field, Placed, Pow2, MaskedWrite;
    var (m, mw, d, dw) := Layout(c);
    LayoutFits(c, mux, div);
    assert forall i :: m <= i < m + mw ==> i in Span(m, mw) && i !in Span(d, dw);
    assert forall i :: d <= i < d + dw ==> i in Span(d, dw) && i !in Span(m, mw);
    WriteField(RegOf(s, c), Mask(c), Data(c, mux, div), mux, m, mw);
    WriteField(RegOf(s, c), Mask(c), Data(c, mux, div), div, d, dw);
  }

  /** Where a programmed clock ends up: register 73 or 74, selector and divider at these
      bits, and no other bit of the register or of the other register changes. */
  lemma ProgramBits(s: Regs, c: Clock, mux: nat, div: nat)
    requires Encodable(c, mux, div)
    ensures var r := Program(s, c, mux, div);
      match c
      case HclkRoot => Field(r.con73, 0, 2) == mux && r.con74 == s.con74 && Outside(s.con73, r.con73, 0, 1)
      case Dsu0 => Field(r.con73, 7, 3) == mux && Field(r.con73, 2, 5) == div && r.con74 == s.con74 && Outside(s.con73, r.con73, 2, 9)
      case PclkRoot => Field(r.con74, 1, 2) == mux && r.con73 == s.con73 && Outside(s.con74, r.con74, 1, 2)
      case Cm0Root => Field(r.con74, 5, 2) == mux && r.con73 == s.con73 && Outside(s.con74, r.con74, 5, 6)
      case Cm0Rtc => Field(r.con74, 12, 1) == mux && Field(r.con74, 7, 5) == div && r.con73 == s.con73 && Outside(s.con74, r.con74, 7, 12)
      case TimerRoot => Field(r.con74, 3, 1) == mux && r.con73 == s.con73 && Outside(s.con74, r.con74, 3, 3)
  {
    hide Field, Placed, Pow2;
    var (m, mw, d, dw) := Layout(c);
    LayoutFits(c, mux, div);
    assert forall i :: m <= i < m + mw ==> i in Span(m, mw) && i !in Span(d, dw);
    assert forall i :: d <= i < d + dw ==> i in Span(d, dw) && i !in Span(m, mw);
    WriteField(RegOf(s, c), Mask(c), Data(c, mux, div), mux, m, mw);
    WriteField(RegOf(s, c), Mask(c), Data(c, mux, div), div, d, dw);
  }

  /** Two register values differ only in bits `lo` to `hi`. */
  ghost predicate Outside(a: Reg, b: Reg, lo: nat, hi: nat) { forall i :: i < lo || i > hi ==> (i in a <==> i in b) }

  /** The rate each selector stands for, undivided. */
  lemma SelectorRates(s: Regs, c: Clock, mux: nat)
    requires Encodable(c, mux, 0)
    ensures GetRate(Program(s, c, mux, 0), c) == Some(
      match c
      case HclkRoot => if mux == 0 then 200_000_000 else if mux == 1 then 100_000_000 else if mux == 2 then 50_000_000 else 24_000_000
      case Dsu0 => if mux == 0 then 1188_000_000 else if mux == 1 then 1000_000_000 else if mux == 2 then 786_432_000 else if mux == 3 then 850_000_000 else 702_000_000
      case PclkRoot => if mux == 0 then 100_000_000 else if mux == 1 then 50_000_000 else 24_000_000
      case Cm0Root => if mux == 0 then 400_000_000 else if mux == 1 then 200_000_000 else if mux == 2 then 100_000_000 else 24_000_000
      case Cm0Rtc => if mux == 0 then 24_000_000 else 32_768
      case TimerRoot => if mux == 0 then 24_000_000 else 100_000_000)
  {
    hide GetRate, Program;
    ProgramSelf(s, c, mux, 0);
  }

  // --------------------------------------------------------------- choosing a rate

  /** The best (parent, divider) seen in loop order up to parent `p`, divider `d`. */
  ghost predicate Tried(p: nat, d: nat, i: nat, j: nat) { i < p || (i == p && j < d) }

  /** `rate` is met by some parent and divider in 1..32. */
  predicate Reaches(parents: seq<nat>, i: nat, j: nat, rate: nat) {
    i < |parents| && 1 <= j <= 32 && parents[i] / j <= rate
  }

  /** Search all parents and dividers for the largest rate not above the request. */
  method BestDivider(parents: seq<nat>, rate: nat) returns (best: Option<(nat, nat)>)
    requires rate <= MAX_RATE && forall i :: 0 <= i < |parents| ==> parents[i] >= DIVIDERS
    ensures best.None? <==> forall i: nat, j: nat :: !Reaches(parents, i, j, rate)
    ensures best.Some? ==>
      && Reaches(parents, best.value.0, best.value.1, rate)
      && forall i: nat, j: nat :: Reaches(parents, i, j, rate) ==> parents[i] / j <= parents[best.value.0] / best.value.1
  {
    var bestIdx: nat, bestDiv: nat, bestRate: nat, minDiff: nat := 0, 1, 0, MAX_RATE;
    for p := 0 to |parents|
      invariant Best(parents, rate, p, 1, bestIdx, bestDiv, bestRate, minDiff)
    {
      for d := 1 to DIVIDERS + 1
        invariant Best(parents, rate, p, d, bestIdx, bestDiv, bestRate, minDiff)
      {
        QuotientPositive(parents[p], d);
        var quotient := parents[p] / d;
        if quotient <= rate {
          var diff := rate - quotient;
          if diff < minDiff {
            minDiff, bestIdx, bestDiv, bestRate := diff, p, d, quotient;
          }
        }
      }
    }
    if bestRate == 0 {
      return None;
    }
    return Some((bestIdx, bestDiv));
  }

  ghost predicate Best(parents: seq<nat>, rate: nat, p: nat, d: nat, idx: nat, div: nat, best: nat, minDiff: nat) {
    && (best == 0 ==> minDiff == MAX_RATE && forall i: nat, j: nat :: Tried(p, d, i, j) ==> !Reaches(parents, i, j, rate))
    && (best > 0 ==>
          Reaches(parents, idx, div, rate) && best == parents[idx] / div && minDiff == rate - best
          && forall i: nat, j: nat :: Tried(p, d, i, j) && Reaches(parents, i, j, rate) ==> parents[i] / j <= best)
  }

  lemma QuotientPositive(a: nat, d: nat)
    requires a >= DIVIDERS && 1 <= d <= DIVIDERS
    ensures a / d >= 1
  {
  }

  /** Selector of a clock without divider. */
  function FixedChoice(c: Clock, rate: nat): nat
    requires !Divides(c)
  {
    match c
    case HclkRoot => if rate >= 200_000_000 then 0 else if rate >= 100_000_000 then 1 else if rate >= 50_000_000 then 2 else 3
    case PclkRoot => if rate >= 100_000_000 then 0 else if rate >= 50_000_000 then 1 else 2
    case Cm0Root => if rate >= 400_000_000 then 0 else if rate >= 200_000_000 then 1 else if rate >= 100_000_000 then 2 else 3
    case TimerRoot => if rate >= 100_000_000 then 1 else 0
  }

  /** What a successful set promises about the rate it reports. A clock without divider
      falls back to its slowest parent when all are above the request. */
  ghost predicate IsBest(c: Clock, rate: nat, r: nat) {
    if Divides(c) then
      && (exists i: nat, j: nat :: Reaches(Parents(c), i, j, rate) && r == Parents(c)[i] / j)
      && (forall i: nat, j: nat :: Reaches(Parents(c), i, j, rate) ==> Parents(c)[i] / j <= r)
    else
      && r in Parents(c)
      && (r <= rate || forall i :: 0 <= i < |Parents(c)| ==> rate < Parents(c)[i] && r <= Parents(c)[i])
      && (forall i :: 0 <= i < |Parents(c)| && Parents(c)[i] <= rate ==> Parents(c)[i] <= r)
  }

  lemma FixedIsBest(c: Clock, rate: nat)
    requires !Divides(c)
    ensures Encodable(c, FixedChoice(c, rate), 0) && IsBest(c, rate, Parents(c)[FixedChoice(c, rate)])
  {
    var ps := Parents(c);
    assert ps[FixedChoice(c, rate)] in ps;
  }

  // ------------------------------------------------------------------------ gates

  /** Register and bit of a gate; a clear bit means the clock runs. */
  function GateAt(id: nat): Option<(nat, nat)> {
    if id == 290 then Some((27, 0)) else if id == 291 then Some((27, 2)) else if id == 292 then Some((28, 0))
    else if id == 293 then Some((28, 2)) else if id == 294 then Some((30, 1)) else if id == 295 then Some((30, 3))
    else if id == 296 then Some((30, 5)) else if id == 297 then Some((29, 12)) else if id == 298 then Some((29, 13))
    else if id == 299 then Some((29, 14)) else if id == 300 then Some((29, 15)) else if id == 301 then Some((30, 6))
    else if id == 302 then Some((30, 8)) else if id == 303 then Some((29, 0)) else if id == 304 then Some((29, 1))
    else if id == 305 then Some((29, 4)) else if id == 306 then Some((29, 6)) else if id == 307 then Some((29, 7))
    else if id == 308 then Some((29, 8)) else if id == 309 then Some((29, 9)) else if id == 310 then Some((29, 10))
    else if id == 311 then Some((29, 11)) else None
  }

  /** No two gates share a bit. */
  lemma GatesDistinct(a: nat, b: nat)
    requires GateAt(a).Some? && GateAt(a) == GateAt(b)
    ensures a == b
  {
  }

  predicate Open(gates: map<nat, Reg>, id: nat) {
    GateAt(id).Some? && GateAt(id).value.0 in gates && GateAt(id).value.1 !in gates[GateAt(id).value.0]
  }

  function SetGate(gates: map<nat, Reg>, id: nat, on: bool): map<nat, Reg>
    requires GateAt(id).Some? && GateAt(id).value.0 in gates
  {
    var (r, bit) := GateAt(id).value;
    gates[r := MaskedWrite(gates[r], {bit}, if on then {} else {bit})]
  }

  predicate HasGates(gates: map<nat, Reg>) { 27 in gates && 28 in gates && 29 in gates && 30 in gates }

  lemma SetGateEffect(gates: map<nat, Reg>, id: nat, on: bool, other: nat)
    requires HasGates(gates) && GateAt(id).Some?
    ensures HasGates(SetGate(gates, id, on)) && Open(SetGate(gates, id, on), id) == on
    ensures other != id ==> Open(SetGate(gates, id, on), other) == Open(gates, other)
  {
    if GateAt(other) == GateAt(id) { GatesDistinct(id, other); }
  }

  /** Where the gates are: two registers of even bits, one of three runs of bits, one mixed. */
  lemma GateByBit(id: nat)
    ensures GateAt(id).Some? <==> 290 <= id <= 311
    ensures GateAt(id).Some? ==>
      var (r, b) := GateAt(id).value;
      && 27 <= r <= 30
      && (r == 27 ==> id == 290 + b / 2 && b % 2 == 0) && (r == 28 ==> id == 292 + b / 2 && b % 2 == 0)
      && (r == 29 ==> id == if b >= 12 then 285 + b else if b >= 6 then 300 + b else if b == 4 then 305 else 303 + b)
      && (r == 30 ==> id == if b < 6 then 294 + b / 2 else 298 + b / 2)
  {
  }

  /** Switching on clears the gate's bit, switching off sets it. */
  lemma GateBit(gates: map<nat, Reg>, id: nat, on: bool)
    requires HasGates(gates) && GateAt(id).Some?
    ensures var (r, b) := GateAt(id).value; (b in SetGate(gates, id, on)[r]) <==> !on
  {
  }

  // ---------------------------------------------------------------------- histories

  datatype Call = Rate(clock: Clock, mux: nat, div: nat) | Gate(id: nat, on: bool)

  predicate CallOk(call: Call) {
    match call
    case Rate(c, mux, div) => Encodable(c, mux, div)
    case Gate(id, on) => GateAt(id).Some?
  }

  datatype Unit = Unit(regs: Regs, gates: map<nat, Reg>)

  function ApplyCall(u: Unit, call: Call): Unit
    requires CallOk(call) && HasGates(u.gates)
  {
    match call
    case Rate(c, mux, div) => u.(regs := Program(u.regs, c, mux, div))
    case Gate(id, on) => u.(gates := SetGate(u.gates, id, on))
  }

  ghost function After(u: Unit, calls: seq<Call>): (r: Unit)
    requires HasGates(u.gates) && forall i :: 0 <= i < |calls| ==> CallOk(calls[i])
    ensures HasGates(r.gates)
  {
    if calls == [] then u else ApplyCall(After(u, calls[..|calls| - 1]), calls[|calls| - 1])
  }

  /** The rate the last call for `c` reported, if there was one. */
  ghost function LastRate(calls: seq<Call>, c: Clock): Option<nat>
    requires forall i :: 0 <= i < |calls| ==> CallOk(calls[i])
  {
    if calls == [] then None
    else
      var last := calls[|calls| - 1];
      assert CallOk(last);
      if last.Rate? && last.clock == c then Some(Parents(c)[last.mux] / (last.div + 1)) else LastRate(calls[..|calls| - 1], c)
  }

  ghost function LastGate(calls: seq<Call>, id: nat): Option<bool> {
    if calls == [] then None
    else
      var last := calls[|calls| - 1];
      if last.Gate? && last.id == id then Some(last.on) else LastGate(calls[..|calls| - 1], id)
  }

  /** After any sequence of calls a clock reads what its last successful set reported,
      and a gate what its last switch made it, whatever was done to the others. */
  lemma {:induction false} LastCallWins(u: Unit, calls: seq<Call>, c: Clock, id: nat)
    requires HasGates(u.gates) && forall i :: 0 <= i < |calls| ==> CallOk(calls[i])
    ensures GetRate(After(u, calls).regs, c) == if LastRate(calls, c).Some? then LastRate(calls, c) else GetRate(u.regs, c)
    ensures Open(After(u, calls).gates, id) == if LastGate(calls, id).Some? then LastGate(calls, id).value else Open(u.gates, id)
  {
    hide GetRate, Program, Open, SetGate, HasGates, Parents;
    if calls != [] {
      var before := calls[..|calls| - 1];
      LastCallWins(u, before, c, id);
      match calls[|calls| - 1] {
        case Rate(o, mux, div) =>
          if o == c { ProgramSelf(After(u, before).regs, c, mux, div); } else { ProgramOthers(After(u, before).regs, o, mux, div, c); }
        case Gate(o, on) => SetGateEffect(After(u, before).gates, o, on, id);
      }
    }
  }

  // ------------------------------------------------------------------------ the unit

  class Cru {
    var regs: Regs
    var gates: map<nat, Reg>

    constructor (regs: Regs, gates: map<nat, Reg>)
      requires HasGates(gates)
      ensures this.regs == regs && this.gates == gates
    {
      this.regs, this.gates := regs, gates;
    }

    /** Set a clock as close to the request as it goes, from below; a failure writes
        nothing and means that nothing achievable is low enough. */
    method SetClock(c: Clock, rate: nat) returns (r: Option<nat>)
      requires rate <= MAX_RATE
      modifies this`regs
      ensures r.None? ==> regs == old(regs) && Divides(c) && forall i: nat, j: nat :: !Reaches(Parents(c), i, j, rate)
      ensures r.Some? ==> IsBest(c, rate, r.value) && GetRate(regs, c) == r
      ensures forall o: Clock :: o != c ==> GetRate(regs, o) == GetRate(old(regs), o)
    {
      hide GetRate, Program, Parents;
      var mux: nat, div: nat;
      if Divides(c) {
        var best := BestDivider(Parents(c), rate);
        if best.None? {
          return None;
        }
        mux, div := best.value.0, best.value.1 - 1;
      } else {
        mux, div := FixedChoice(c, rate), 0;
        FixedIsBest(c, rate);
      }
      r := Some(Parents(c)[mux] / (div + 1));
      ProgramSelf(regs, c, mux, div);
      forall o: Clock | o != c ensures GetRate(Program(regs, c, mux, div), o) == GetRate(regs, o) { ProgramOthers(regs, c, mux, div, o); }
      regs := Program(regs, c, mux, div);
    }

    method SwitchGate(id: nat, on: bool) returns (known: bool)
      requires HasGates(gates)
      modifies this`gates
      ensures HasGates(gates) && known == GateAt(id).Some?
      ensures known ==> Open(gates, id) == on
      ensures forall o :: o != id || !known ==> Open(gates, o) == Open(old(gates), o)
    {
      hide Open, SetGate;
      if GateAt(id).None? {
        return false;
      }
      SetGateEffect(gates, id, on, id);
      forall o: nat | o != id ensures Open(SetGate(gates, id, on), o) == Open(gates, o) { SetGateEffect(gates, id, on, o); }
      gates := SetGate(gates, id, on);
      return true;
    }
  }
}
