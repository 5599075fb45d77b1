/**
  Register commands of a half-precision matrix multiplication: the split of the
  on-chip buffer into banks and the 64-bit words that carry the task's parameters.
  Shifts and masks of disjoint bit fields are written as arithmetic.
*/
module RegCmd {
  import opened Radix
  import opened Sums

  const BANK_BYTES: nat := 32768
  const BANKS: nat := 12
  const W16: nat := 0x1_0000

  const OP_CNA: nat := 0x201
  const OP_CORE: nat := 0x801
  const OP_DPU: nat := 0x1001
  const OP_PC: nat := 0x101
  const OP_40: nat := 0x41
  const OP_ENABLE: nat := 0x81

  datatype Params = Params(m: nat, k: nat, n: nat, input: nat, weights: nat, output: nat, fp32tofp16: nat)

  /** Parameter widths: 16-bit sizes, 32-bit addresses and a one-byte conversion flag. */
  predicate Sized(p: Params) {
    p.m < W16 && p.k < W16 && p.n < W16 && p.input < U32 && p.weights < U32 && p.output < U32 && p.fp32tofp16 < 0x100
  }

  function BanksFor(bytes: nat): nat {
    if bytes % BANK_BYTES == 0 then bytes / BANK_BYTES else bytes / BANK_BYTES + 1
  }

  /** Banks of input data; the byte count is a 32-bit value. */
  function DataBanks(p: Params): nat { BanksFor(p.m * p.k * 2 % U32) }

  function Code(p: Params): int {
    if DataBanks(p) > BANKS - 1 then -1 else if p.k * 2 <= BANK_BYTES then 0 else -2
  }

  /** The least number of banks that hold that many bytes. */
  lemma BanksAreLeast(bytes: nat)
    ensures bytes <= BanksFor(bytes) * BANK_BYTES
    ensures forall b: nat :: bytes <= b * BANK_BYTES ==> BanksFor(bytes) <= b
  {
  }

  /** A task is accepted exactly when a row of weights fits one bank and the input
      fits eleven; the 32-bit count has not wrapped then, and the banks it gets are
      the fewest that hold the input, the rest going to the weights. */
  lemma AcceptedIff(p: Params)
    requires Sized(p)
    ensures Code(p) == 0 <==> p.k * 2 <= 32768 && p.m * p.k * 2 <= 11 * 32768
    ensures Code(p) == 0 ==> DataBanks(p) == BanksFor(p.m * p.k * 2) <= BANKS - 1
  {
    hide BanksFor;
    BanksBound(p.m * p.k * 2 % U32);
    if p.k * 2 <= BANK_BYTES { MulLe(p.m, p.k, 16384); }
  }

  /** Refusals: -1 when the input, its bytes counted in 32 bits, does not fit eleven banks,
      and -2 when it does and a row of weights does not fit one. */
  lemma RefusedIff(p: Params)
    requires Sized(p)
    ensures Code(p) == -1 <==> p.m * p.k * 2 % 0x1_0000_0000 > 11 * 32768
    ensures Code(p) == -2 <==> p.m * p.k * 2 % 0x1_0000_0000 <= 11 * 32768 && p.k * 2 > 32768
  {
    hide BanksFor;
    BanksBound(p.m * p.k * 2 % U32);
  }

  lemma BanksBound(bytes: nat)
    ensures BanksFor(bytes) <= BANKS - 1 <==> bytes <= (BANKS - 1) * BANK_BYTES
  {
  }

  lemma MulLe(a: nat, b: nat, c: nat)
    requires b <= c
    ensures a * b <= a * c
  {
  }

  // ----------------------------------------------------------------------- words

  function Word(op: nat, value: nat, reg: nat): nat { Pack(Pack(op % W16, value % U32, U32), reg % W16, W16) }

  function RegOf(word: nat): nat { word % W16 }

  function ValueOf(word: nat): nat { word / W16 % U32 }

  function OpOf(word: nat): nat { word / W16 / U32 }

  lemma WordRoundTrip(op: nat, value: nat, reg: nat)
    requires op < W16 && value < U32 && reg < W16
    ensures OpOf(Word(op, value, reg)) == op && ValueOf(Word(op, value, reg)) == value && RegOf(Word(op, value, reg)) == reg
    ensures Word(op, value, reg) < W16 * U32 * W16
  {
    Unpack(Pack(op, value, U32), reg, W16);
    Unpack(op, value, U32);
    PackBound(op, value, W16, U32);
    PackBound(Pack(op, value, U32), reg, W16 * U32, W16);
  }

  /** `hi` above the `lo` field of 16 bits, each cut to its width. */
  function Fields(hi: nat, hiSize: nat, lo: nat, loSize: nat): nat
    requires hiSize > 0 && loSize > 0
  {
    Pack(hi % hiSize, lo % loSize, W16)
  }

  lemma FieldsSplit(hi: nat, hiSize: nat, lo: nat, loSize: nat)
    requires 0 < hiSize <= W16 && 0 < loSize <= W16
    ensures Fields(hi, hiSize, lo, loSize) < U32
    ensures Fields(hi, hiSize, lo, loSize) / W16 == hi % hiSize && Fields(hi, hiSize, lo, loSize) % W16 == lo % loSize
  {
    Unpack(hi % hiSize, lo % loSize, W16);
    PackBound(hi % hiSize, lo % loSize, W16, W16);
  }

  /** Decrement of a 16-bit field. */
  function Dec16(x: nat): nat { (x + W16 - 1) % W16 }

  function WeightBytes(p: Params): nat { p.k * 2 * p.n % U32 }

  // ------------------------------------------------------------- the command list

  const WORDS: nat := 112
  const USED: nat := 108
  /** How many words the hardware reads as register writes. */
  const REGISTER_WORDS: nat := 104

  function OpAt(i: nat): nat {
    if i == 0 then OP_DPU else if i <= 48 then OP_CNA else if i <= 53 then OP_CORE else if i <= 103 then OP_DPU
    else if i == 105 then OP_PC else if i == 106 then OP_40 else if i == 107 then OP_ENABLE else 0
  }

  function RegAt(i: nat): nat {
    if i == 0 then 0x4004
    else if i <= 3 then 0x100C + 4 * (i - 1)
    else if i <= 10 then 0x1020 + 4 * (i - 4)
    else if i <= 12 then 0x1040 + 4 * (i - 11)
    else if i <= 20 then 0x104C + 4 * (i - 13)
    else if i <= 27 then 0x1070 + 4 * (i - 21)
    else if i <= 29 then 0x1100 + 4 * (i - 28)
    else if i == 30 then 0x1110
    else if i <= 48 then 0x1140 + 4 * (i - 31)
    else if i <= 52 then 0x3010 + 4 * (i - 49)
    else if i == 53 then 0x3030
    else if i <= 56 then 0x400C + 4 * (i - 54)
    else if i <= 58 then 0x4020 + 4 * (i - 57)
    else if i <= 81 then 0x4030 + 4 * (i - 59)
    else if i <= 89 then 0x4090 + 4 * (i - 82)
    else if i <= 91 then 0x40C0 + 4 * (i - 90)
    else if i <= 103 then 0x4100 + 4 * (i - 92)
    else if i == 105 then 0x14 else if i == 107 then 0x8 else 0
  }

  /** Rows of 32 channels per input line. */
  function DataEntries(p: Params): nat { if p.k % 32 == 0 then p.k / 32 else p.k / 32 + 1 }

  /** Four times the number of further row groups; with fewer than four rows the
      subtraction goes below zero and is cut to 28 bits. */
  function SurfStride(p: Params): nat { if p.m >= 4 then 4 * (p.m / 4 - 1) else 0xFFF_FFFD }

  function SizeValue(p: Params, i: nat): nat
    requires Code(p) == 0
  {
    if i == 0 then 0xE
    else if i == 1 then 0x120
    else if i == 2 then (p.m + 1) % W16 % 0x400 * 16
    else if i == 3 then 0x9
    else if i == 4 then Fields(1, 0x800, p.m, 0x800)
    else if i == 5 then Fields(Dec16(p.k), W16, p.k, W16)
    else if i == 6 then 1
    else if i == 7 then p.m % 0x4_0000
    else if i == 8 then WeightBytes(p)
    else if i == 9 then p.k * 2 % 0x8_0000
    else if i == 10 then 0x100_0000 + Fields(1, 0x20, p.n, 0x4000)
    else if i == 11 then (BANKS - DataBanks(p)) % 16 * 16 + DataBanks(p) % 16
    else if i == 12 then DataEntries(p) % 0x2000
    else if i == 13 then 0xB
    else if i <= 17 then 0x1_0000
    else 0
  }

  function TransferValue(p: Params, i: nat): nat {
    if i == 21 then p.input
    else if i == 23 then 0xF_000F
    else if i == 24 then 4
    else if i == 25 then SurfStride(p)
    else if i == 26 then Fields(1, 0x800, p.m, 0x800)
    else if i == 27 then p.k % W16
    else if i == 30 then p.weights
    else 0
  }

  function OutputValue(p: Params, i: nat): nat {
    if i == 49 then 0x201
    else if i == 50 then Fields(Dec16(p.m), W16, 0, W16)
    else if i == 51 then Dec16(p.n)
    else if i == 54 then 0x1E4
    else if i == 55 then (if p.fp32tofp16 == 0 then 0xA800_0002 else 0x4800_0002)
    else if i == 57 then p.output
    else if i == 58 then p.m * 16
    else if i == 60 then Dec16(p.m) % 0x2000
    else if i == 62 then Fields(Dec16(p.n), 0x2000, Dec16(p.n), 0x2000)
    else if i == 63 then 0x53
    else if i == 67 then (if p.fp32tofp16 == 0 then 0x36E else 0x126)
    else if i == 69 then Dec16(p.n) % 0x2000
    else if i == 70 then Fields(Dec16(p.m), 0x2000, 0, 0x2000)
    else 0
  }

  function PostValue(p: Params, i: nat): nat {
    if i == 71 then 0x53
    else if i == 75 then 0x383
    else if i == 77 then 1
    else if i == 80 then Fields(p.fp32tofp16, 2, 1, W16)
    else if i == 90 then (if p.fp32tofp16 == 0 then p.m * 64 else p.m * 32)
    else if i == 107 then 0xD
    else 0
  }

  function ValueAt(p: Params, i: nat): nat
    requires Code(p) == 0
  {
    if i <= 20 then SizeValue(p, i) else if i <= 48 then TransferValue(p, i) else if i <= 70 then OutputValue(p, i) else PostValue(p, i)
  }

  function WordAt(p: Params, i: nat): nat
    requires Code(p) == 0
  {
    Word(OpAt(i), ValueAt(p, i), RegAt(i))
  }

  ghost predicate Upto(p: Params, ops: seq<nat>, n: nat) {
    |ops| == WORDS && n <= WORDS && Code(p) == 0 && forall i :: 0 <= i < n ==> ops[i] == WordAt(p, i)
  }

  /** The whole list: every word the generator writes. */
  ghost predicate Emitted(p: Params, ops: seq<nat>) { Upto(p, ops, USED) }

  lemma ValueFits(p: Params, i: nat)
    requires Sized(p) && Code(p) == 0
    ensures ValueAt(p, i) < U32
  {
    hide Fields, DataBanks, BanksFor;
    FieldsSplit(1, 0x800, p.m, 0x800);
    FieldsSplit(Dec16(p.k), W16, p.k, W16);
    FieldsSplit(1, 0x20, p.n, 0x4000);
    FieldsSplit(Dec16(p.m), W16, 0, W16);
    FieldsSplit(Dec16(p.n), 0x2000, Dec16(p.n), 0x2000);
    FieldsSplit(Dec16(p.m), 0x2000, 0, 0x2000);
    FieldsSplit(p.fp32tofp16, 2, 1, W16);
    KernelsFit(p);
  }

  lemma KernelsFit(p: Params)
    ensures 0x100_0000 + Fields(1, 0x20, p.n, 0x4000) < U32
  {
  }

  /** Every emitted word names its block and register and carries its value whole. */
  lemma EmittedValue(p: Params, ops: seq<nat>, i: nat)
    requires Sized(p) && Emitted(p, ops) && i < USED
    ensures ValueOf(ops[i]) == ValueAt(p, i) && OpOf(ops[i]) == OpAt(i) && RegOf(ops[i]) == RegAt(i)
  {
    hide ValueAt, Word, OpOf, RegOf, ValueOf;
    ValueFits(p, i);
    WordRoundTrip(OpAt(i), ValueAt(p, i), RegAt(i));
  }

  // ------------------------------------------------------------- the register file

  /** The registers after the first `n` words have been carried out in order. */
  ghost function RegFile(ops: seq<nat>, n: nat): map<nat, nat>
    requires n <= |ops|
  {
    if n == 0 then map[] else RegFile(ops, n - 1)[RegOf(ops[n - 1]) := ValueOf(ops[n - 1])]
  }

  lemma RegsAscend(i: nat, j: nat)
    requires 1 <= i < j < REGISTER_WORDS
    ensures RegAt(i) < RegAt(j)
  {
  }

  /** No register is written twice. */
  lemma RegsDistinct(i: nat, j: nat)
    requires i < j < REGISTER_WORDS
    ensures RegAt(i) != RegAt(j)
  {
    if i > 0 { RegsAscend(i, j); }
  }

  lemma {:induction false} LastWriteStays(ops: seq<nat>, i: nat, n: nat)
    requires i < n <= |ops| && forall j :: i < j < n ==> RegOf(ops[j]) != RegOf(ops[i])
    ensures RegOf(ops[i]) in RegFile(ops, n) && RegFile(ops, n)[RegOf(ops[i])] == ValueOf(ops[i])
  {
    if i < n - 1 { LastWriteStays(ops, i, n - 1); }
  }

  /** After the list has run, each register holds the value its word carries. */
  lemma RegisterHolds(p: Params, ops: seq<nat>, i: nat)
    requires Sized(p) && Emitted(p, ops) && i < REGISTER_WORDS
    ensures RegAt(i) in RegFile(ops, REGISTER_WORDS) && RegFile(ops, REGISTER_WORDS)[RegAt(i)] == ValueAt(p, i)
  {
    hide ValueAt, WordAt, RegAt, OpAt, RegOf, ValueOf;
    EmittedValue(p, ops, i);
    forall j | i < j < REGISTER_WORDS ensures RegOf(ops[j]) != RegOf(ops[i]) {
      EmittedValue(p, ops, j);
      RegsDistinct(i, j);
    }
    LastWriteStays(ops, i, REGISTER_WORDS);
  }

  function At(file: map<nat, nat>, reg: nat): nat { if reg in file then file[reg] else 0 }

  /** Shape, bank split, addresses and output format as the hardware's registers give them. */
  ghost predicate Recovered(p: Params, file: map<nat, nat>) {
    RowsRecovered(p, file) && ColumnsRecovered(p, file) && SizesRecovered(p, file)
  }

  ghost predicate RowsRecovered(p: Params, file: map<nat, nat>) {
    && At(file, 0x1010) / 16 == p.m + 1
    && At(file, 0x1020) % W16 == p.m && At(file, 0x102C) == p.m && At(file, 0x1084) % W16 == p.m
    && At(file, 0x3014) / W16 == p.m - 1 && At(file, 0x4034) == p.m - 1 && At(file, 0x405C) / W16 == p.m - 1
    && At(file, 0x4024) == p.m * 16
  }

  ghost predicate ColumnsRecovered(p: Params, file: map<nat, nat>) {
    && At(file, 0x1024) % W16 == p.k && At(file, 0x1024) / W16 == p.k - 1 && At(file, 0x1088) == p.k
    && At(file, 0x1038) % W16 == p.n && At(file, 0x3018) == p.n - 1
    && At(file, 0x403C) / W16 == p.n - 1 && At(file, 0x403C) % W16 == p.n - 1 && At(file, 0x4058) == p.n - 1
  }

  ghost predicate SizesRecovered(p: Params, file: map<nat, nat>) {
    && At(file, 0x1034) == p.k * 2 && At(file, 0x1030) == p.k * 2 * p.n
    && 32 * (At(file, 0x1044) - 1) < p.k <= 32 * At(file, 0x1044)
    && At(file, 0x1040) % 16 == BanksFor(p.m * p.k * 2) && At(file, 0x1040) / 16 == BANKS - BanksFor(p.m * p.k * 2)
    && At(file, 0x1070) == p.input && At(file, 0x1110) == p.weights && At(file, 0x4020) == p.output
    && (At(file, 0x4010) == 0xA800_0002 <==> p.fp32tofp16 == 0)
    && (At(file, 0x40C0) == (if At(file, 0x4010) == 0xA800_0002 then 4 else 2) * At(file, 0x4024))
  }

  /** For an accepted task with no empty dimension, the registers give back the shape,
      the bank split, the addresses and the output format if and only if there are at
      most 1022 rows and 8192 columns; beyond that a field drops high bits. */
  lemma RecoveredIff(p: Params, ops: seq<nat>)
    requires Sized(p) && Emitted(p, ops) && p.m > 0 && p.k > 0 && p.n > 0
    ensures Recovered(p, RegFile(ops, REGISTER_WORDS)) <==> p.m <= 1022 && p.n <= 8192
  {
    hide ValueAt, WordAt, RegFile, RowsRecovered, ColumnsRecovered, SizesRecovered;
    if p.m <= 1022 && p.n <= 8192 {
      RowsBack(p, ops);
      ColumnsBack(p, ops);
      SizesBack(p, ops);
    } else if p.m > 1022 {
      RowsLost(p, ops);
    } else {
      ColumnsLost(p, ops);
    }
  }

  lemma RowsLost(p: Params, ops: seq<nat>)
    requires Sized(p) && Emitted(p, ops) && p.m > 1022
    ensures !RowsRecovered(p, RegFile(ops, REGISTER_WORDS))
  {
    hide ValueAt, RegFile, WordAt;
    RegisterHolds(p, ops, 2);
    GrainsValue(p);
  }

  lemma GrainsValue(p: Params)
    requires Sized(p) && Code(p) == 0
    ensures ValueAt(p, 2) / 16 == p.m + 1 <==> p.m <= 1022
  {
    hide Code;
    assert ValueAt(p, 2) == (p.m + 1) % W16 % 0x400 * 16;
    CutToTen((p.m + 1) % W16);
  }

  lemma CutToTen(x: nat)
    ensures x % 0x400 * 16 / 16 == x % 0x400
  {
  }

  lemma ColumnsLost(p: Params, ops: seq<nat>)
    requires Sized(p) && Emitted(p, ops) && p.n > 8192
    ensures !ColumnsRecovered(p, RegFile(ops, REGISTER_WORDS))
  {
    hide ValueAt, RegFile, WordAt;
    RegisterHolds(p, ops, 69);
    WdmaValue(p);
  }

  lemma WdmaValue(p: Params)
    requires Sized(p) && Code(p) == 0 && p.n > 8192
    ensures ValueAt(p, 69) != p.n - 1
  {
  }

  lemma DecFits(x: nat, bound: nat)
    requires 0 < x <= bound < W16
    ensures Dec16(x) == x - 1
  {
  }

  lemma RowsBack(p: Params, ops: seq<nat>)
    requires Sized(p) && Emitted(p, ops) && 0 < p.m <= 1022
    ensures RowsRecovered(p, RegFile(ops, REGISTER_WORDS))
  {
    hide ValueAt, RegFile, WordAt;
    RegisterHolds(p, ops, 2);
    RegisterHolds(p, ops, 4);
    RegisterHolds(p, ops, 7);
    RegisterHolds(p, ops, 26);
    RegisterHolds(p, ops, 50);
    RegisterHolds(p, ops, 58);
    RegisterHolds(p, ops, 60);
    RegisterHolds(p, ops, 70);
    RowValues(p);
  }

  lemma RowValues(p: Params)
    requires Sized(p) && Code(p) == 0 && 0 < p.m <= 1022
    ensures ValueAt(p, 2) / 16 == p.m + 1 && ValueAt(p, 4) % W16 == p.m && ValueAt(p, 7) == p.m && ValueAt(p, 26) % W16 == p.m
    ensures ValueAt(p, 50) / W16 == p.m - 1 && ValueAt(p, 58) == p.m * 16 && ValueAt(p, 60) == p.m - 1 && ValueAt(p, 70) / W16 == p.m - 1
  {
    hide Code, Fields, Dec16;
    DecFits(p.m, 1022);
    FieldsSplit(1, 0x800, p.m, 0x800);
    FieldsSplit(Dec16(p.m), W16, 0, W16);
    FieldsSplit(Dec16(p.m), 0x2000, 0, 0x2000);
  }

  lemma ColumnsBack(p: Params, ops: seq<nat>)
    requires Sized(p) && Emitted(p, ops) && 0 < p.n <= 8192 && p.k > 0
    ensures ColumnsRecovered(p, RegFile(ops, REGISTER_WORDS))
  {
    hide ValueAt, RegFile, WordAt;
    RegisterHolds(p, ops, 5);
    RegisterHolds(p, ops, 10);
    RegisterHolds(p, ops, 27);
    RegisterHolds(p, ops, 51);
    RegisterHolds(p, ops, 62);
    RegisterHolds(p, ops, 69);
    ColumnValues(p);
  }

  lemma ColumnValues(p: Params)
    requires Sized(p) && Code(p) == 0 && 0 < p.n <= 8192 && p.k > 0
    ensures ValueAt(p, 5) % W16 == p.k && ValueAt(p, 5) / W16 == p.k - 1 && ValueAt(p, 27) == p.k
    ensures ValueAt(p, 10) % W16 == p.n && ValueAt(p, 51) == p.n - 1
    ensures ValueAt(p, 62) / W16 == p.n - 1 && ValueAt(p, 62) % W16 == p.n - 1 && ValueAt(p, 69) == p.n - 1
  {
    hide Code, Fields, Dec16;
    DecFits(p.k, W16 - 1);
    DecFits(p.n, 8192);
    FieldsSplit(Dec16(p.k), W16, p.k, W16);
    FieldsSplit(1, 0x20, p.n, 0x4000);
    FieldsSplit(Dec16(p.n), 0x2000, Dec16(p.n), 0x2000);
  }

  lemma SizesBack(p: Params, ops: seq<nat>)
    requires Sized(p) && Emitted(p, ops) && p.n <= 8192 && p.k > 0
    ensures SizesRecovered(p, RegFile(ops, REGISTER_WORDS))
  {
    hide ValueAt, RegFile, WordAt, BanksFor, DataBanks;
    RegisterHolds(p, ops, 8);
    RegisterHolds(p, ops, 9);
    RegisterHolds(p, ops, 11);
    RegisterHolds(p, ops, 12);
    RegisterHolds(p, ops, 21);
    RegisterHolds(p, ops, 30);
    RegisterHolds(p, ops, 55);
    RegisterHolds(p, ops, 57);
    RegisterHolds(p, ops, 58);
    RegisterHolds(p, ops, 90);
    AcceptedIff(p);
    WeightValues(p);
    EntryValue(p);
    BankValue(p);
    FormatValues(p);
  }

  lemma WeightValues(p: Params)
    requires Sized(p) && Code(p) == 0 && p.n <= 8192
    ensures ValueAt(p, 9) == p.k * 2 && ValueAt(p, 8) == p.k * 2 * p.n
  {
    hide Fields, DataBanks, DataEntries, TransferValue, OutputValue, PostValue;
    MulLe(p.k * 2, p.n, 8192);
  }

  lemma EntryValue(p: Params)
    requires Sized(p) && Code(p) == 0 && p.k > 0
    ensures 32 * (ValueAt(p, 12) - 1) < p.k <= 32 * ValueAt(p, 12)
  {
    hide Fields, DataBanks, DataEntries, WeightBytes, TransferValue, OutputValue, PostValue;
    EntriesCover(p);
  }

  lemma BankValue(p: Params)
    requires Sized(p) && Code(p) == 0
    ensures ValueAt(p, 11) % 16 == DataBanks(p) && ValueAt(p, 11) / 16 == BANKS - DataBanks(p)
  {
    hide Fields, DataBanks, DataEntries, WeightBytes, TransferValue, OutputValue, PostValue;
    BankFields(DataBanks(p));
  }

  lemma EntriesCover(p: Params)
    requires 0 < p.k < W16
    ensures 32 * (DataEntries(p) % 0x2000 - 1) < p.k <= 32 * (DataEntries(p) % 0x2000)
  {
  }

  lemma FormatValues(p: Params)
    requires Sized(p) && Code(p) == 0
    ensures ValueAt(p, 21) == p.input && ValueAt(p, 30) == p.weights && ValueAt(p, 57) == p.output
    ensures ValueAt(p, 55) == 0xA800_0002 <==> p.fp32tofp16 == 0
    ensures ValueAt(p, 90) == (if p.fp32tofp16 == 0 then 4 else 2) * ValueAt(p, 58)
  {
  }

  lemma BankFields(b: nat)
    requires b < BANKS
    ensures ((BANKS - b) % 16 * 16 + b % 16) % 16 == b && ((BANKS - b) % 16 * 16 + b % 16) / 16 == BANKS - b
  {
  }

  // ----------------------------------------------------------- configuration fields

  /** A field of a value: `lo` is the weight of its lowest bit, `size` its number of values. */
  function Bits(v: nat, lo: nat, size: nat): nat
    requires lo > 0 && size > 0
  {
    v / lo % size
  }

  const HALF: nat := 2
  const SINGLE: nat := 5

  /** The input side, field by field: half precision in and out, direct convolution with
      stride 1, input conversion bypassed at scale 1, bursts of 15. */
  lemma InputFields(p: Params)
    requires Code(p) == 0
    ensures var v := ValueAt(p, 1); Bits(v, 0x80, 8) == HALF && Bits(v, 0x10, 8) == HALF && Bits(v, 1, 16) == 0 && v < 0x400
    ensures var v := ValueAt(p, 3); Bits(v, 8, 8) == 1 && Bits(v, 1, 8) == 1 && v < 0x40
    ensures var v := ValueAt(p, 13); Bits(v, 8, 2) == 1 && Bits(v, 2, 2) == 1 && Bits(v, 1, 2) == 1 && Bits(v, 4, 2) == 0 && v < 16
    ensures ValueAt(p, 14) == ValueAt(p, 15) == ValueAt(p, 16) == ValueAt(p, 17) == 1 * W16
    ensures var v := ValueAt(p, 23); Bits(v, W16, 16) == 15 && Bits(v, 1, W16) == 15
    ensures ValueAt(p, 6) == 1 && ValueAt(p, 24) == 4
  {
    hide Fields, DataBanks, WeightBytes, Code, OutputValue, PostValue;
  }

  /** One column wide, one kernel element, and the surface stride of whole row groups. */
  lemma ShapeFields(p: Params)
    requires Code(p) == 0
    ensures var v := ValueAt(p, 2); Bits(v, W16, 0x100) == 0 && v % 16 == 0
    ensures Bits(ValueAt(p, 4), W16, 0x800) == 1
    ensures var v := ValueAt(p, 10); Bits(v, 0x100_0000, 0x20) == 1 && Bits(v, W16, 0x20) == 1
    ensures p.m >= 4 ==> ValueAt(p, 25) == 4 * (p.m / 4 - 1)
  {
    hide Fields, DataBanks, WeightBytes, Code;
    FieldsSplit(1, 0x800, p.m, 0x800);
    FieldsSplit(1, 0x20, p.n, 0x4000);
    assert ValueAt(p, 4) == Fields(1, 0x800, p.m, 0x800);
    assert ValueAt(p, 10) == 0x100_0000 + Fields(1, 0x20, p.n, 0x4000);
    GrainField((p.m + 1) % W16 % 0x400);
  }

  lemma GrainField(x: nat)
    requires x < 0x400
    ensures Bits(x * 16, W16, 0x100) == 0 && x * 16 % 16 == 0
  {
  }

  /** The output side: half-precision core, output precision by the conversion flag, and
      every post-processing stage bypassed. */
  lemma OutputFields(p: Params)
    requires Code(p) == 0
    ensures var v := ValueAt(p, 49); Bits(v, 0x100, 8) == HALF && Bits(v, 1, 0x100) == 1
    ensures var v := ValueAt(p, 54); Bits(v, 0x20, 16) == 15 && Bits(v, 8, 4) == 0 && Bits(v, 2, 4) == 2 && Bits(v, 1, 2) == 0 && v < 0x200
    ensures var v := ValueAt(p, 55);
      Bits(v, 0x2000_0000, 8) == (if p.fp32tofp16 == 0 then SINGLE else HALF) && Bits(v, 0x400_0000, 8) == HALF && Bits(v, 1, 0x400_0000) == HALF
    ensures ValueAt(p, 63) == ValueAt(p, 71) == 0x40 + 0x10 + 2 + 1
    ensures ValueAt(p, 75) == 0x200 + 0x100 + 0x80 + 2 + 1 && ValueAt(p, 77) == 1
    ensures ValueAt(p, 107) == 1 + 4 + 8
  {
    hide Fields, DataBanks, WeightBytes, Code, SizeValue, TransferValue;
  }

  /** The element sizes written and the conversion, both by the conversion flag. */
  lemma ConversionFields(p: Params)
    requires Code(p) == 0
    ensures var v, e := ValueAt(p, 67), if p.fp32tofp16 == 0 then 3 else 1;
      Bits(v, 0x100, 8) == e && Bits(v, 0x20, 8) == e && Bits(v, 4, 8) == e && Bits(v, 2, 2) == 1 && Bits(v, 1, 2) == 0
    ensures var v := ValueAt(p, 80); Bits(v, W16, 2) == p.fp32tofp16 % 2 && Bits(v, 1, W16) == 1
  {
    hide Fields, DataBanks, WeightBytes, Code, SizeValue, TransferValue;
    FieldsSplit(p.fp32tofp16, 2, 1, W16);
    assert ValueAt(p, 80) == Fields(p.fp32tofp16, 2, 1, W16);
  }

  /** Everything else that carries no parameter is written as zero. */
  lemma ZeroWords(p: Params, i: nat)
    requires Code(p) == 0 && i < USED
    requires 18 <= i <= 20 || i == 22 || i == 28 || i == 29 || 31 <= i <= 48 || i == 52 || i == 53 || i == 56 || i == 59 || i == 61
      || 64 <= i <= 66 || i == 68 || 72 <= i <= 74 || i == 76 || i == 78 || i == 79 || 81 <= i <= 89 || 91 <= i <= 106
    ensures ValueAt(p, i) == 0
  {
  }

  /** The four words after the registers: nothing, the register count, the marker and the
      start word. */
  lemma TailWords()
    ensures OpAt(104) == 0 && OpAt(105) == 0x101 && OpAt(106) == 0x41 && OpAt(107) == 0x81
    ensures RegAt(104) == 0 && RegAt(105) == 0x14 && RegAt(106) == 0 && RegAt(107) == 0x8
  {
  }

  /** The block of a register word is the one its register's address lies in. */
  lemma BlockOfRegister(i: nat)
    requires i < REGISTER_WORDS
    ensures OpAt(i) == (if RegAt(i) / 0x1000 == 1 then 0x201 else if RegAt(i) / 0x1000 == 3 then 0x801 else 0x1001)
    ensures RegAt(i) / 0x1000 in {1, 3, 4} && RegAt(i) % 4 == 0
  {
  }

  // ------------------------------------------------------------------- the generator

  /** Append the next word of the list. */
  method Put(ops: array<nat>, i: nat, op: nat, value: nat, reg: nat, ghost p: Params)
    requires ops.Length == WORDS && i < USED && Upto(p, ops[..], i)
    requires op == OpAt(i) && value == ValueAt(p, i) && reg == RegAt(i)
    modifies ops
    ensures Upto(p, ops[..], i + 1) && ops[USED..] == old(ops[USED..])
  {
    ops[i] := Word(op, value, reg);
  }

  /** Shapes and weight sizes. */
  method PutShape(p: Params, ops: array<nat>)
    requires ops.Length == WORDS && Upto(p, ops[..], 0)
    modifies ops
    ensures Upto(p, ops[..], 11) && ops[USED..] == old(ops[USED..])
  {
    hide Upto, Fields, Dec16, WeightBytes, DataBanks, DataEntries, SurfStride, Code;
    Put(ops, 0, OP_DPU, 0xE, 0x4004, p);
    Put(ops, 1, OP_CNA, 0x120, 0x100C, p);
    Put(ops, 2, OP_CNA, (p.m + 1) % W16 % 0x400 * 16, 0x1010, p);
    Put(ops, 3, OP_CNA, 0x9, 0x1014, p);
    Put(ops, 4, OP_CNA, Fields(1, 0x800, p.m, 0x800), 0x1020, p);
    Put(ops, 5, OP_CNA, Fields(Dec16(p.k), W16, p.k, W16), 0x1024, p);
    Put(ops, 6, OP_CNA, 1, 0x1028, p);
    Put(ops, 7, OP_CNA, p.m % 0x4_0000, 0x102C, p);
    Put(ops, 8, OP_CNA, WeightBytes(p), 0x1030, p);
    Put(ops, 9, OP_CNA, p.k * 2 % 0x8_0000, 0x1034, p);
    Put(ops, 10, OP_CNA, 0x100_0000 + Fields(1, 0x20, p.n, 0x4000), 0x1038, p);
  }

  /** The bank split and input conversion. */
  method PutBuffer(p: Params, ops: array<nat>, banks: nat, entries: nat)
    requires ops.Length == WORDS && Upto(p, ops[..], 11) && banks == DataBanks(p) && entries == DataEntries(p)
    modifies ops
    ensures Upto(p, ops[..], 21) && ops[USED..] == old(ops[USED..])
  {
    hide Upto, Fields, Dec16, WeightBytes, DataBanks, DataEntries, SurfStride, Code;
    Put(ops, 11, OP_CNA, (BANKS - banks) % 16 * 16 + banks % 16, 0x1040, p);
    Put(ops, 12, OP_CNA, entries % 0x2000, 0x1044, p);
    Put(ops, 13, OP_CNA, 0xB, 0x104C, p);
    Put(ops, 14, OP_CNA, 0x1_0000, 0x1050, p);
    Put(ops, 15, OP_CNA, 0x1_0000, 0x1054, p);
    Put(ops, 16, OP_CNA, 0x1_0000, 0x1058, p);
    Put(ops, 17, OP_CNA, 0x1_0000, 0x105C, p);
    Put(ops, 18, OP_CNA, 0x0, 0x1060, p);
    Put(ops, 19, OP_CNA, 0x0, 0x1064, p);
    Put(ops, 20, OP_CNA, 0x0, 0x1068, p);
  }

  /** Data fetch. */
  method PutTransfer(p: Params, ops: array<nat>)
    requires ops.Length == WORDS && Upto(p, ops[..], 21)
    modifies ops
    ensures Upto(p, ops[..], 31) && ops[USED..] == old(ops[USED..])
  {
    hide Upto, Fields, Dec16, WeightBytes, DataBanks, DataEntries, SurfStride, Code;
    Put(ops, 21, OP_CNA, p.input, 0x1070, p);
    Put(ops, 22, OP_CNA, 0x0, 0x1074, p);
    Put(ops, 23, OP_CNA, 0xF_000F, 0x1078, p);
    Put(ops, 24, OP_CNA, 4, 0x107C, p);
    Put(ops, 25, OP_CNA, SurfStride(p), 0x1080, p);
    Put(ops, 26, OP_CNA, Fields(1, 0x800, p.m, 0x800), 0x1084, p);
    Put(ops, 27, OP_CNA, p.k % W16, 0x1088, p);
    Put(ops, 28, OP_CNA, 0x0, 0x1100, p);
    Put(ops, 29, OP_CNA, 0x0, 0x1104, p);
    Put(ops, 30, OP_CNA, p.weights, 0x1110, p);
  }

  /** Weight decompression, unused. */
  method PutWeights(p: Params, ops: array<nat>)
    requires ops.Length == WORDS && Upto(p, ops[..], 31)
    modifies ops
    ensures Upto(p, ops[..], 40) && ops[USED..] == old(ops[USED..])
  {
    hide Upto, Fields, Dec16, WeightBytes, DataBanks, DataEntries, SurfStride, Code;
    Put(ops, 31, OP_CNA, 0x0, 0x1140, p);
    Put(ops, 32, OP_CNA, 0x0, 0x1144, p);
    Put(ops, 33, OP_CNA, 0x0, 0x1148, p);
    Put(ops, 34, OP_CNA, 0x0, 0x114C, p);
    Put(ops, 35, OP_CNA, 0x0, 0x1150, p);
    Put(ops, 36, OP_CNA, 0x0, 0x1154, p);
    Put(ops, 37, OP_CNA, 0x0, 0x1158, p);
    Put(ops, 38, OP_CNA, 0x0, 0x115C, p);
    Put(ops, 39, OP_CNA, 0x0, 0x1160, p);
  }

  /** The rest of it, and padding. */
  method PutPadding(p: Params, ops: array<nat>)
    requires ops.Length == WORDS && Upto(p, ops[..], 40)
    modifies ops
    ensures Upto(p, ops[..], 49) && ops[USED..] == old(ops[USED..])
  {
    hide Upto, Fields, Dec16, WeightBytes, DataBanks, DataEntries, SurfStride, Code;
    Put(ops, 40, OP_CNA, 0x0, 0x1164, p);
    Put(ops, 41, OP_CNA, 0x0, 0x1168, p);
    Put(ops, 42, OP_CNA, 0x0, 0x116C, p);
    Put(ops, 43, OP_CNA, 0x0, 0x1170, p);
    Put(ops, 44, OP_CNA, 0x0, 0x1174, p);
    Put(ops, 45, OP_CNA, 0x0, 0x1178, p);
    Put(ops, 46, OP_CNA, 0x0, 0x117C, p);
    Put(ops, 47, OP_CNA, 0x0, 0x1180, p);
    Put(ops, 48, OP_CNA, 0x0, 0x1184, p);
  }

  /** The multiply core and the output cube. */
  method PutCore(p: Params, ops: array<nat>)
    requires ops.Length == WORDS && Upto(p, ops[..], 49)
    modifies ops
    ensures Upto(p, ops[..], 63) && ops[USED..] == old(ops[USED..])
  {
    hide Upto, Fields, Dec16, WeightBytes, DataBanks, DataEntries, SurfStride, Code;
    Put(ops, 49, OP_CORE, 0x201, 0x3010, p);
    Put(ops, 50, OP_CORE, Fields(Dec16(p.m), W16, 0, W16), 0x3014, p);
    Put(ops, 51, OP_CORE, Dec16(p.n), 0x3018, p);
    Put(ops, 52, OP_CORE, 0x0, 0x301C, p);
    Put(ops, 53, OP_CORE, 0x0, 0x3030, p);
    Put(ops, 54, OP_DPU, 0x1E4, 0x400C, p);
    Put(ops, 55, OP_DPU, if p.fp32tofp16 == 0 then 0xA800_0002 else 0x4800_0002, 0x4010, p);
    Put(ops, 56, OP_DPU, 0x0, 0x4014, p);
    Put(ops, 57, OP_DPU, p.output, 0x4020, p);
    Put(ops, 58, OP_DPU, p.m * 16, 0x4024, p);
    Put(ops, 59, OP_DPU, 0x0, 0x4030, p);
    Put(ops, 60, OP_DPU, Dec16(p.m) % 0x2000, 0x4034, p);
    Put(ops, 61, OP_DPU, 0x0, 0x4038, p);
    Put(ops, 62, OP_DPU, Fields(Dec16(p.n), 0x2000, Dec16(p.n), 0x2000), 0x403C, p);
  }

  /** Post-processing bypasses and the write-back sizes. */
  method PutWrite(p: Params, ops: array<nat>)
    requires ops.Length == WORDS && Upto(p, ops[..], 63)
    modifies ops
    ensures Upto(p, ops[..], 71) && ops[USED..] == old(ops[USED..])
  {
    hide Upto, Fields, Dec16, WeightBytes, DataBanks, DataEntries, SurfStride, Code;
    Put(ops, 63, OP_DPU, 0x53, 0x4040, p);
    Put(ops, 64, OP_DPU, 0x0, 0x4044, p);
    Put(ops, 65, OP_DPU, 0x0, 0x4048, p);
    Put(ops, 66, OP_DPU, 0x0, 0x404C, p);
    Put(ops, 67, OP_DPU, if p.fp32tofp16 == 0 then 0x36E else 0x126, 0x4050, p);
    Put(ops, 68, OP_DPU, 0x0, 0x4054, p);
    Put(ops, 69, OP_DPU, Dec16(p.n) % 0x2000, 0x4058, p);
    Put(ops, 70, OP_DPU, Fields(Dec16(p.m), 0x2000, 0, 0x2000), 0x405C, p);
  }

  /** Element-wise bypasses and output conversion. */
  method PutConvert(p: Params, ops: array<nat>)
    requires ops.Length == WORDS && Upto(p, ops[..], 71)
    modifies ops
    ensures Upto(p, ops[..], 82) && ops[USED..] == old(ops[USED..])
  {
    hide Upto, Fields, Dec16, WeightBytes, DataBanks, DataEntries, SurfStride, Code;
    Put(ops, 71, OP_DPU, 0x53, 0x4060, p);
    Put(ops, 72, OP_DPU, 0x0, 0x4064, p);
    Put(ops, 73, OP_DPU, 0x0, 0x4068, p);
    Put(ops, 74, OP_DPU, 0x0, 0x406C, p);
    Put(ops, 75, OP_DPU, 0x383, 0x4070, p);
    Put(ops, 76, OP_DPU, 0x0, 0x4074, p);
    Put(ops, 77, OP_DPU, 1, 0x4078, p);
    Put(ops, 78, OP_DPU, 0x0, 0x407C, p);
    Put(ops, 79, OP_DPU, 0x0, 0x4080, p);
    Put(ops, 80, OP_DPU, Fields(p.fp32tofp16, 2, 1, W16), 0x4084, p);
    Put(ops, 81, OP_DPU, 0x0, 0x4088, p);
  }

  /** Element-wise operands, unused, and the surface step. */
  method PutSurface(p: Params, ops: array<nat>)
    requires ops.Length == WORDS && Upto(p, ops[..], 82)
    modifies ops
    ensures Upto(p, ops[..], 92) && ops[USED..] == old(ops[USED..])
  {
    hide Upto, Fields, Dec16, WeightBytes, DataBanks, DataEntries, SurfStride, Code;
    Put(ops, 82, OP_DPU, 0x0, 0x4090, p);
    Put(ops, 83, OP_DPU, 0x0, 0x4094, p);
    Put(ops, 84, OP_DPU, 0x0, 0x4098, p);
    Put(ops, 85, OP_DPU, 0x0, 0x409C, p);
    Put(ops, 86, OP_DPU, 0x0, 0x40A0, p);
    Put(ops, 87, OP_DPU, 0x0, 0x40A4, p);
    Put(ops, 88, OP_DPU, 0x0, 0x40A8, p);
    Put(ops, 89, OP_DPU, 0x0, 0x40AC, p);
    Put(ops, 90, OP_DPU, if p.fp32tofp16 == 0 then p.m * 64 else p.m * 32, 0x40C0, p);
    Put(ops, 91, OP_DPU, 0x0, 0x40C4, p);
  }

  /** Lookup tables, unused. */
  method PutTables(p: Params, ops: array<nat>)
    requires ops.Length == WORDS && Upto(p, ops[..], 92)
    modifies ops
    ensures Upto(p, ops[..], 100) && ops[USED..] == old(ops[USED..])
  {
    hide Upto, Fields, Dec16, WeightBytes, DataBanks, DataEntries, SurfStride, Code;
    Put(ops, 92, OP_DPU, 0x0, 0x4100, p);
    Put(ops, 93, OP_DPU, 0x0, 0x4104, p);
    Put(ops, 94, OP_DPU, 0x0, 0x4108, p);
    Put(ops, 95, OP_DPU, 0x0, 0x410C, p);
    Put(ops, 96, OP_DPU, 0x0, 0x4110, p);
    Put(ops, 97, OP_DPU, 0x0, 0x4114, p);
    Put(ops, 98, OP_DPU, 0x0, 0x4118, p);
    Put(ops, 99, OP_DPU, 0x0, 0x411C, p);
  }

  /** The rest of them, and the words that start the task. */
  method PutTail(p: Params, ops: array<nat>)
    requires ops.Length == WORDS && Upto(p, ops[..], 100)
    modifies ops
    ensures Upto(p, ops[..], 108) && ops[USED..] == old(ops[USED..])
  {
    hide Upto, Fields, Dec16, WeightBytes, DataBanks, DataEntries, SurfStride, Code;
    Put(ops, 100, OP_DPU, 0x0, 0x4120, p);
    Put(ops, 101, OP_DPU, 0x0, 0x4124, p);
    Put(ops, 102, OP_DPU, 0x0, 0x4128, p);
    Put(ops, 103, OP_DPU, 0x0, 0x412C, p);
    Put(ops, 104, 0, 0x0, 0x0, p);
    Put(ops, 105, OP_PC, 0x0, 0x14, p);
    Put(ops, 106, OP_40, 0x0, 0x0, p);
    Put(ops, 107, OP_ENABLE, 0xD, 0x8, p);
  }

  /** Generate the command list of a multiplication, or refuse and leave the list alone.
      The list's four spare words are never touched. */
  method GenMatmulFp16(p: Params, ops: array<nat>) returns (code: int)
    requires Sized(p) && ops.Length == WORDS
    modifies ops
    ensures code == Code(p)
    ensures code == 0 ==> Emitted(p, ops[..]) && ops[USED..] == old(ops[USED..])
    ensures code != 0 ==> ops[..] == old(ops[..])
  {
    hide BanksFor, WordAt;
    var banks := DataBanks(p);
    if banks > BANKS - 1 {
      return -1;
    }
    if p.k * 2 > BANK_BYTES {
      return -2;
    }
    PutShape(p, ops);
    PutBuffer(p, ops, banks, DataEntries(p));
    PutTransfer(p, ops);
    PutWeights(p, ops);
    PutPadding(p, ops);
    PutCore(p, ops);
    PutWrite(p, ops);
    PutConvert(p, ops);
    PutSurface(p, ops);
    PutTables(p, ops);
    PutTail(p, ops);
    code := 0;
  }
}
