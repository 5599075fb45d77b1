/** Mixed-radix packing: the arithmetic under every tiled address map. */
module Radix {
  function Pack(a: nat, b: nat, n: nat): nat { a * n + b }

  lemma DivModUnique(x: nat, q: nat, r: nat, n: nat)
    requires r < n && x == q * n + r
    ensures x / n == q && x % n == r
  {
    assert x == x / n * n + x % n;
    Digits(x / n, x % n, q, r, n);
  }

  lemma {:induction false} MulStep(a: nat, b: nat, n: nat)
    ensures a < b ==> a * n + n <= b * n
  {
    if a < b {
      assert b * n == (b - 1) * n + n;
      MulStep(a, b - 1, n);
    }
  }

  lemma Digits(d: nat, e: nat, q: nat, r: nat, n: nat)
    requires d * n + e == q * n + r && e < n && r < n
    ensures d == q && e == r
  {
    MulStep(d, q, n);
    MulStep(q, d, n);
  }

  lemma Unpack(a: nat, b: nat, n: nat)
    requires b < n
    ensures Pack(a, b, n) / n == a && Pack(a, b, n) % n == b
  {
    DivModUnique(Pack(a, b, n), a, b, n);
  }

  lemma Repack(x: nat, n: nat)
    requires n > 0
    ensures Pack(x / n, x % n, n) == x
  {
  }

  lemma PackBound(a: nat, b: nat, m: nat, n: nat)
    requires a < m && b < n
    ensures Pack(a, b, n) < m * n
  {
    assert (a + 1) * n <= m * n;
  }

  lemma DivBound(x: nat, m: nat, n: nat)
    requires n > 0 && x < m * n
    ensures x / n < m
  {
    Repack(x, n);
    MulStep(m, x / n, n);
  }
}

/** Address maps of the NPU's tiled feature and weight layouts. */
module MatmulLayout {
  import opened Radix

  /** Position of channel `c`, row `h`, column `w` (all counted from 1): planes of
      `C2` channels, row-major within a plane, channels innermost. */
  function FeatureData(C: nat, H: nat, W: nat, C2: nat, c: nat, h: nat, w: nat): int
    requires C2 > 0 && c > 0 && h > 0 && w > 0
  {
    (c - 1) / C2 * H * W * C2 + C2 * ((h - 1) * W + (w - 1)) + (c - 1) % C2
  }

  predicate InTensor(C: nat, H: nat, W: nat, c: nat, h: nat, w: nat) { 0 < c <= C && 0 < h <= H && 0 < w <= W }

  /** The reading direction: which element lives at a position. */
  function FeatureAt(H: nat, W: nat, C2: nat, pos: nat): (nat, nat, nat)
    requires H > 0 && W > 0 && C2 > 0
  {
    Positive(H, W);
    var cells: nat := H * W;
    var cell: nat := pos / C2;
    var plane: nat := cell / cells;
    var place: nat := cell % cells;
    (Pack(plane, pos % C2, C2) + 1, place / W + 1, place % W + 1)
  }

  lemma Positive(a: nat, b: nat)
    requires a > 0 && b > 0
    ensures a * b > 0
  {
  }

  lemma FeatureIsPack(C: nat, H: nat, W: nat, C2: nat, c: nat, h: nat, w: nat)
    requires C2 > 0 && c > 0 && h > 0 && w > 0
    ensures FeatureData(C, H, W, C2, c, h, w) == Pack(Pack((c - 1) / C2, Pack(h - 1, w - 1, W), H * W), (c - 1) % C2, C2)
  {
    var p, cell := (c - 1) / C2, Pack(h - 1, w - 1, W);
    assert (p * (H * W) + cell) * C2 == p * (H * W) * C2 + cell * C2;
    assert p * H * W == p * (H * W);
  }

  /** Reading back what was placed: distinct elements get distinct positions. */
  lemma FeatureInverse(C: nat, H: nat, W: nat, C2: nat, c: nat, h: nat, w: nat)
    requires C2 > 0 && InTensor(C, H, W, c, h, w)
    ensures FeatureData(C, H, W, C2, c, h, w) >= 0
    ensures FeatureAt(H, W, C2, FeatureData(C, H, W, C2, c, h, w)) == (c, h, w)
  {
    var cell := Pack(h - 1, w - 1, W);
    FeatureIsPack(C, H, W, C2, c, h, w);
    PackBound(h - 1, w - 1, H, W);
    Unpack(Pack((c - 1) / C2, cell, H * W), (c - 1) % C2, C2);
    Unpack((c - 1) / C2, cell, H * W);
    Unpack(h - 1, w - 1, W);
    Repack(c - 1, C2);
  }

  /** All positions lie in the buffer when the channels fill whole planes. */
  lemma FeatureInRange(C: nat, H: nat, W: nat, C2: nat, c: nat, h: nat, w: nat)
    requires C2 > 0 && InTensor(C, H, W, c, h, w) && C % C2 == 0
    ensures 0 <= FeatureData(C, H, W, C2, c, h, w) < C * H * W
  {
    var P := C / C2;
    assert C == P * C2;
    FeatureIsPack(C, H, W, C2, c, h, w);
    DivBound(c - 1, P, C2);
    PackBound(h - 1, w - 1, H, W);
    PackBound((c - 1) / C2, Pack(h - 1, w - 1, W), P, H * W);
    PackBound(Pack((c - 1) / C2, Pack(h - 1, w - 1, W), H * W), (c - 1) % C2, P * (H * W), C2);
    assert P * (H * W) * C2 == C * H * W by { Rearrange(P, H, W, C2); }
  }

  lemma Rearrange(P: nat, H: nat, W: nat, C2: nat)
    ensures P * (H * W) * C2 == P * C2 * H * W
  {
    assert P * (H * W) * C2 == P * C2 * (H * W);
    assert P * C2 * (H * W) == P * C2 * H * W;
  }

  /** Every position of the buffer is used. */
  lemma FeatureOnto(C: nat, H: nat, W: nat, C2: nat, pos: nat)
    requires C2 > 0 && C % C2 == 0 && pos < C * H * W
    ensures H > 0 && W > 0
    ensures var (c, h, w) := FeatureAt(H, W, C2, pos); InTensor(C, H, W, c, h, w) && FeatureData(C, H, W, C2, c, h, w) == pos
  {
    assert C * H * W > 0;
    NonZero(C, H, W);
    var P := C / C2;
    assert C == P * C2;
    Rearrange(P, H, W, C2);
    Positive(H, W);
    var cell := pos / C2;
    DivBound(pos, P * (H * W), C2);
    DivBound(cell, P, H * W);
    DivBound(cell % (H * W), H, W);
    var (c, h, w) := FeatureAt(H, W, C2, pos);
    Unpack(cell / (H * W), pos % C2, C2);
    FeatureIsPack(C, H, W, C2, c, h, w);
    Repack(cell % (H * W), W);
    Repack(cell, H * W);
    Repack(pos, C2);
    PackBound(cell / (H * W), pos % C2, P, C2);
  }

  lemma NonZero(C: nat, H: nat, W: nat)
    requires C * H * W > 0
    ensures C > 0 && H > 0 && W > 0
  {
    assert H == 0 ==> C * H == 0;
    assert W == 0 ==> C * H * W == 0;
  }

  /** For channels that do not fill whole planes some position falls outside the
      buffer, unless there is a single cell. */
  lemma FeatureRangeIff(C: nat, H: nat, W: nat, C2: nat)
    requires C > 0 && H > 0 && W > 0 && C2 > 0
    ensures (forall c: nat, h: nat, w: nat :: InTensor(C, H, W, c, h, w) ==> 0 <= FeatureData(C, H, W, C2, c, h, w) < C * H * W)
      <==> C % C2 == 0 || H * W == 1
  {
    if C % C2 == 0 {
      forall c: nat, h: nat, w: nat | InTensor(C, H, W, c, h, w) ensures 0 <= FeatureData(C, H, W, C2, c, h, w) < C * H * W {
        FeatureInRange(C, H, W, C2, c, h, w);
      }
    } else if H * W == 1 {
      Singleton(H, W);
      forall c: nat, h: nat, w: nat | InTensor(C, H, W, c, h, w) ensures 0 <= FeatureData(C, H, W, C2, c, h, w) < C * H * W {
        FeatureIsPack(C, H, W, C2, c, h, w);
        Repack(c - 1, C2);
      }
    } else {
      LastOverflows(C, H, W, C2);
      assert InTensor(C, H, W, C, H, W);
    }
  }

  lemma Singleton(H: nat, W: nat)
    requires H * W == 1
    ensures H == 1 && W == 1
  {
    assert H >= 2 && W >= 1 ==> H * W >= 2 * W;
    assert W >= 2 && H >= 1 ==> H * W >= 2 * H;
  }

  lemma LastOverflows(C: nat, H: nat, W: nat, C2: nat)
    requires C > 0 && H > 0 && W > 0 && C2 > 0 && C % C2 != 0 && H * W != 1
    ensures FeatureData(C, H, W, C2, C, H, W) >= C * H * W
  {
    Positive(H, W);
    var q: nat, r: nat, n: nat := C / C2, C % C2, H * W;
    Repack(C, C2);
    DivModUnique(C - 1, q, r - 1, C2);
    FeatureIsPack(C, H, W, C2, C, H, W);
    assert Pack(H - 1, W - 1, W) == n - 1;
    Overflow(q, r, n, C2);
    assert C * H * W == C * n;
  }

  lemma Overflow(q: nat, r: nat, n: nat, C2: nat)
    requires 0 < r < C2 && n > 1
    ensures (q * n + (n - 1)) * C2 + (r - 1) >= (q * C2 + r) * n
  {
    Distribute(q * n, n - 1, C2);
    Distribute(q * C2, r, n);
    Swap(q, n, C2);
    Distribute(n - 1, 1, r);
    Distribute(r, C2 - r, n - 1);
    Positive(C2 - r, n - 1);
  }

  lemma Distribute(a: int, b: int, c: int)
    ensures (a + b) * c == a * c + b * c && c * (a + b) == (a + b) * c && b * c == c * b
  {
  }

  lemma Swap(a: int, b: int, c: int)
    ensures a * b * c == a * c * b
  {
  }

  // ------------------------------------------------------------------- weights

  /** Position of kernel `k`, channel `c` (from 1): groups of `g` kernels, tiles of
      32 channels within a group. */
  function Weight(g: nat, C: nat, k: nat, c: nat): int
    requires g > 0 && k > 0 && c > 0
  {
    (c - 1) / 32 * 32 * g + (k - 1) / g * g * C + (c - 1) % 32 + (k - 1) % g * 32
  }

  function WeightFp16(C: nat, k: nat, c: nat): int
    requires k > 0 && c > 0
  {
    Weight(16, C, k, c)
  }

  function WeightInt8(C: nat, k: nat, c: nat): int
    requires k > 0 && c > 0
  {
    Weight(32, C, k, c)
  }

  function WeightAt(g: nat, C: nat, pos: nat): (nat, nat)
    requires g > 0 && C >= 32
  {
    var tiles: nat := C / 32;
    var line: nat := pos / 32;
    var tile: nat := line / g;
    (Pack(tile / tiles, line % g, g) + 1, Pack(tile % tiles, pos % 32, 32) + 1)
  }

  lemma WeightIsPack(g: nat, C: nat, k: nat, c: nat)
    requires g > 0 && k > 0 && c > 0 && C % 32 == 0
    ensures Weight(g, C, k, c) == Pack(Pack(Pack((k - 1) / g, (c - 1) / 32, C / 32), (k - 1) % g, g), (c - 1) % 32, 32)
  {
    var a: nat, b: nat, t: nat, l: nat := (k - 1) / g, (c - 1) / 32, C / 32, (k - 1) % g;
    assert C == 32 * t;
    WeightAlgebra(a, b, t, l, g);
  }

  lemma WeightAlgebra(a: nat, b: nat, t: nat, l: nat, g: nat)
    ensures ((a * t + b) * g + l) * 32 == b * 32 * g + a * g * (32 * t) + l * 32
  {
    Distribute(a * t, b, g);
    Swap(a, t, g);
    assert a * g * (32 * t) == 32 * (a * g * t);
    assert b * 32 * g == 32 * (b * g);
  }

  /** The weight map reads back, and fills exactly [0, K*C), when the channels fill
      whole tiles and the kernels whole groups. */
  lemma WeightInverse(g: nat, K: nat, C: nat, k: nat, c: nat)
    requires g > 0 && C % 32 == 0 && 0 < k <= K && 0 < c <= C
    ensures Weight(g, C, k, c) >= 0 && WeightAt(g, C, Weight(g, C, k, c)) == (k, c)
  {
    var t: nat, l: nat := C / 32, (k - 1) % g;
    WeightIsPack(g, C, k, c);
    DivBound(c - 1, t, 32);
    Unpack(Pack(Pack((k - 1) / g, (c - 1) / 32, t), l, g), (c - 1) % 32, 32);
    Unpack(Pack((k - 1) / g, (c - 1) / 32, t), l, g);
    Unpack((k - 1) / g, (c - 1) / 32, t);
    Repack(k - 1, g);
    Repack(c - 1, 32);
  }

  lemma Elements(n: nat, t: nat, g: nat, K: nat, C: nat)
    requires K == n * g && C == t * 32
    ensures n * t * g * 32 == K * C
  {
    Swap(n, t, g);
    assert n * g * t * 32 == n * g * (t * 32);
  }

  lemma Whole(x: nat, n: nat)
    requires n > 0 && x % n == 0
    ensures x == x / n * n
  {
  }

  lemma WeightInRange(g: nat, K: nat, C: nat, k: nat, c: nat)
    requires g > 0 && C % 32 == 0 && K % g == 0 && 0 < k <= K && 0 < c <= C
    ensures 0 <= Weight(g, C, k, c) < K * C
  {
    hide Pack, Weight;
    var t: nat, n: nat := C / 32, K / g;
    Whole(K, g);
    WeightIsPack(g, C, k, c);
    DivBound(c - 1, t, 32);
    DivBound(k - 1, n, g);
    PackBound((k - 1) / g, (c - 1) / 32, n, t);
    PackBound(Pack((k - 1) / g, (c - 1) / 32, t), (k - 1) % g, n * t, g);
    PackBound(Pack(Pack((k - 1) / g, (c - 1) / 32, t), (k - 1) % g, g), (c - 1) % 32, n * t * g, 32);
    Elements(n, t, g, K, C);
  }

  lemma WeightOnto(g: nat, K: nat, C: nat, pos: nat)
    requires g > 0 && C % 32 == 0 && K % g == 0 && pos < K * C
    ensures C >= 32
    ensures var (k, c) := WeightAt(g, C, pos); 0 < k <= K && 0 < c <= C && Weight(g, C, k, c) == pos
  {
    assert C == 0 ==> K * C == 0;
    var t: nat, n: nat := C / 32, K / g;
    Whole(K, g);
    Elements(n, t, g, K, C);
    var line: nat := pos / 32;
    var tile: nat := line / g;
    DivBound(pos, n * t * g, 32);
    DivBound(line, n * t, g);
    DivBound(tile, n, t);
    var (k, c) := WeightAt(g, C, pos);
    Unpack(tile / t, line % g, g);
    Unpack(tile % t, pos % 32, 32);
    PackBound(tile / t, line % g, n, g);
    PackBound(tile % t, pos % 32, t, 32);
    WeightIsPack(g, C, k, c);
    Repack(tile, t);
    Repack(line, g);
    Repack(pos, 32);
  }

  /** The eight-bit layout: for whole tiles both ways every weight has its own place in
      the buffer, and reads back. */
  lemma Int8Places(K: nat, C: nat, k: nat, c: nat)
    requires C % 32 == 0 && K % 32 == 0 && 0 < k <= K && 0 < c <= C
    ensures 0 <= WeightInt8(C, k, c) < K * C && WeightAt(32, C, WeightInt8(C, k, c)) == (k, c)
  {
    WeightInRange(32, K, C, k, c);
    WeightInverse(32, K, C, k, c);
  }

  // ------------------------------------------------------------------------- strides

  /** The feature layout by its strides: it starts at 0, channels of a plane lie side by
      side, columns are one plane width apart, rows one line of columns, planes one whole
      image. */
  lemma FeatureStrides(C: nat, H: nat, W: nat, C2: nat, c: nat, h: nat, w: nat)
    requires C2 > 0 && c > 0 && h > 0 && w > 0
    ensures FeatureData(C, H, W, C2, 1, 1, 1) == 0
    ensures c % C2 != 0 ==> FeatureData(C, H, W, C2, c + 1, h, w) == FeatureData(C, H, W, C2, c, h, w) + 1
    ensures FeatureData(C, H, W, C2, c, h, w + 1) == FeatureData(C, H, W, C2, c, h, w) + C2
    ensures FeatureData(C, H, W, C2, c, h + 1, w) == FeatureData(C, H, W, C2, c, h, w) + C2 * W
    ensures FeatureData(C, H, W, C2, c + C2, h, w) == FeatureData(C, H, W, C2, c, h, w) + C2 * (H * W)
  {
    hide FeatureData;
    Origin(C, H, W, C2);
    ChannelStrides(C, H, W, C2, c, h, w);
    CellStrides(C, H, W, C2, c, h, w);
  }

  lemma ChannelStrides(C: nat, H: nat, W: nat, C2: nat, c: nat, h: nat, w: nat)
    requires C2 > 0 && c > 0 && h > 0 && w > 0
    ensures c % C2 != 0 ==> FeatureData(C, H, W, C2, c + 1, h, w) == FeatureData(C, H, W, C2, c, h, w) + 1
    ensures FeatureData(C, H, W, C2, c + C2, h, w) == FeatureData(C, H, W, C2, c, h, w) + C2 * (H * W)
  {
    hide FeatureData;
    FeatureForm(C, H, W, C2, c, h, w);
    FeatureForm(C, H, W, C2, c + 1, h, w);
    FeatureForm(C, H, W, C2, c + C2, h, w);
    NextInGroup(c - 1, C2);
    NextGroup(c - 1, C2);
    Distribute((c - 1) / C2, 1, H * W * C2);
  }

  lemma CellStrides(C: nat, H: nat, W: nat, C2: nat, c: nat, h: nat, w: nat)
    requires C2 > 0 && c > 0 && h > 0 && w > 0
    ensures FeatureData(C, H, W, C2, c, h, w + 1) == FeatureData(C, H, W, C2, c, h, w) + C2
    ensures FeatureData(C, H, W, C2, c, h + 1, w) == FeatureData(C, H, W, C2, c, h, w) + C2 * W
  {
    hide FeatureData;
    FeatureForm(C, H, W, C2, c, h, w);
    FeatureForm(C, H, W, C2, c, h, w + 1);
    FeatureForm(C, H, W, C2, c, h + 1, w);
    Distribute(h - 1, 1, W);
    Distribute((h - 1) * W + (w - 1), 1, C2);
    Distribute((h - 1) * W + (w - 1), W, C2);
  }

  lemma Origin(C: nat, H: nat, W: nat, C2: nat)
    requires C2 > 0
    ensures FeatureData(C, H, W, C2, 1, 1, 1) == 0
  {
  }

  lemma FeatureForm(C: nat, H: nat, W: nat, C2: nat, c: nat, h: nat, w: nat)
    requires C2 > 0 && c > 0 && h > 0 && w > 0
    ensures FeatureData(C, H, W, C2, c, h, w) == (c - 1) / C2 * (H * W * C2) + ((h - 1) * W + (w - 1)) * C2 + (c - 1) % C2
  {
    var p := (c - 1) / C2;
    assert p * H * W * C2 == p * (H * W * C2) by { assert p * H * W == p * (H * W); assert p * (H * W) * C2 == p * (H * W * C2); }
  }

  /** Stepping inside a group of `n`, and stepping to the next one. */
  lemma NextInGroup(x: nat, n: nat)
    requires n > 0
    ensures (x + 1) % n != 0 ==> (x + 1) / n == x / n && (x + 1) % n == x % n + 1
  {
    Repack(x, n);
    if x % n + 1 < n {
      DivModUnique(x + 1, x / n, x % n + 1, n);
    } else {
      assert (x / n + 1) * n == x / n * n + n;
      DivModUnique(x + 1, x / n + 1, 0, n);
    }
  }

  lemma NextGroup(x: nat, n: nat)
    requires n > 0
    ensures (x + n) / n == x / n + 1 && (x + n) % n == x % n
  {
    Repack(x, n);
    assert (x / n + 1) * n == x / n * n + n;
    DivModUnique(x + n, x / n + 1, x % n, n);
  }

  /** The weight layout by its strides: channels of a tile lie side by side, kernels of a
      group 32 apart, channel tiles one tile of `g` kernels, groups `g` kernels. */
  lemma WeightStrides(g: nat, C: nat, k: nat, c: nat)
    requires g > 0 && k > 0 && c > 0
    ensures Weight(g, C, 1, 1) == 0
    ensures c % 32 != 0 ==> Weight(g, C, k, c + 1) == Weight(g, C, k, c) + 1
    ensures k % g != 0 ==> Weight(g, C, k + 1, c) == Weight(g, C, k, c) + 32
    ensures Weight(g, C, k, c + 32) == Weight(g, C, k, c) + 32 * g
    ensures Weight(g, C, k + g, c) == Weight(g, C, k, c) + g * C
  {
    hide Weight;
    WeightOrigin(g, C);
    WeightForm(g, C, k, c);
    WeightForm(g, C, k, c + 1);
    WeightForm(g, C, k + 1, c);
    WeightForm(g, C, k, c + 32);
    WeightForm(g, C, k + g, c);
    NextInGroup(c - 1, 32);
    NextInGroup(k - 1, g);
    NextGroup(c - 1, 32);
    NextGroup(k - 1, g);
    Distribute((c - 1) / 32, 1, 32 * g);
    Distribute((k - 1) / g, 1, g * C);
  }

  lemma WeightOrigin(g: nat, C: nat)
    requires g > 0
    ensures Weight(g, C, 1, 1) == 0
  {
  }

  lemma WeightForm(g: nat, C: nat, k: nat, c: nat)
    requires g > 0 && k > 0 && c > 0
    ensures Weight(g, C, k, c) == (c - 1) / 32 * (32 * g) + (k - 1) / g * (g * C) + (c - 1) % 32 + (k - 1) % g * 32
  {
    var a, b := (c - 1) / 32, (k - 1) / g;
    assert a * 32 * g == a * (32 * g);
    assert b * g * C == b * (g * C);
  }
}
