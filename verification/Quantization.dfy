/** Symmetric INT8 and INT4 cache rows with one scale a row, in exact arithmetic, and the BF16 store. */
module Quantization {
  import Arith
  import opened Counting

  function Limit(bits: nat): int {
    if bits == 8 then 127 else 7
  }

  /** Entries that share a byte. */
  function PerByte(bits: nat): nat {
    if bits == 8 then 1 else 2
  }

  function Abs(x: real): real {
    if x < 0.0 then -x else x
  }

  /** Conversion to an integer drops the fraction. */
  function Truncate(x: real): int {
    if x >= 0.0 then x.Floor else -(-x).Floor
  }

  /** Nearest integer, ties away from zero. */
  function Nearest(x: real): int {
    Truncate(x + if x >= 0.0 then 0.5 else -0.5)
  }

  function Clamped(q: int, limit: int): int {
    if q > limit then limit else if q < -limit then -limit else q
  }

  lemma NearestIsNear(x: real, limit: int)
    requires limit > 0
    ensures Abs(Nearest(x) as real - x) <= 0.5
    ensures Abs(x) <= limit as real ==> Clamped(Nearest(x), limit) == Nearest(x)
  {
  }

  /** A tie goes away from zero, on either side. */
  lemma TiesGoOut(n: nat)
    ensures Nearest(n as real + 0.5) == n + 1 && Nearest(-(n as real + 0.5)) == -(n + 1)
    ensures Nearest(n as real) == n && Nearest(-(n as real)) == 0 - n
  {
    assert (n as real + 0.5 + 0.5) == (n + 1) as real;
  }

  ghost predicate IsMaximum(input: seq<real>, m: real) {
    && m >= 0.0 && (forall j | 0 <= j < |input| :: Abs(input[j]) <= m)
    && (m == 0.0 || exists j | 0 <= j < |input| :: Abs(input[j]) == m)
  }

  function ScaleFor(maximum: real, bits: nat): (s: real)
    ensures maximum >= 0.0 ==> s > 0.0
  {
    if maximum == 0.0 then 1.0 else maximum / Limit(bits) as real
  }

  lemma Quotient(x: real, maximum: real, l: real)
    requires l > 0.0 && maximum > 0.0 && Abs(x) <= maximum
    ensures Abs(x / (maximum / l)) <= l
  {
    var s := maximum / l;
    var v := x / s;
    assert v * s == x && l * s == maximum;
    if v > l {
      Scaled(l, v, s);
    }
    if v < -l {
      Scaled(v, -l, s);
      Negated(l, s);
    }
  }

  lemma Negated(a: real, b: real)
    ensures (-a) * b == -(a * b)
  {
  }

  /** No entry of the row leaves the range of its codes, so the clamp never changes one. */
  lemma WithinLimit(x: real, maximum: real, bits: nat)
    requires Abs(x) <= maximum
    ensures Abs(x / ScaleFor(maximum, bits)) <= Limit(bits) as real
    ensures Clamped(Nearest(x / ScaleFor(maximum, bits)), Limit(bits)) == Nearest(x / ScaleFor(maximum, bits))
  {
    if maximum > 0.0 {
      Quotient(x, maximum, Limit(bits) as real);
    } else {
      assert x == 0.0;
    }
    NearestIsNear(x / ScaleFor(maximum, bits), Limit(bits));
  }

  lemma Scaled(a: real, b: real, s: real)
    requires a <= b && s > 0.0
    ensures a * s <= b * s && (a < b ==> a * s < b * s)
  {
    if a < b {
      assert (b - a) * s > 0.0;
    }
  }

  function CodeOf(x: real, scale: real, bits: nat): int
    requires scale > 0.0
  {
    Clamped(Nearest(x / scale), Limit(bits))
  }

  /** The code before it is clamped is within its range, so it is the code. */
  lemma CodeIsNearest(x: real, maximum: real, bits: nat)
    requires Abs(x) <= maximum
    ensures var s := ScaleFor(maximum, bits);
      && CodeOf(x, s, bits) == Nearest(x / s)
      && Abs(CodeOf(x, s, bits) as real - x / s) <= 0.5
      && -Limit(bits) <= CodeOf(x, s, bits) <= Limit(bits)
  {
    var s := ScaleFor(maximum, bits);
    WithinLimit(x, maximum, bits);
    NearestIsNear(x / s, Limit(bits));
    hide Nearest, ScaleFor, Abs;
  }

  /** A code times its scale is off by at most half a scale. */
  predicate Near(q: int, s: real, x: real) {
    Abs(q as real * s - x) <= s / 2.0
  }

  /** Taking a code times its scale for the entry is off by at most half a scale. */
  lemma HalfScale(x: real, maximum: real, bits: nat)
    requires Abs(x) <= maximum
    ensures Near(CodeOf(x, ScaleFor(maximum, bits), bits), ScaleFor(maximum, bits), x)
    ensures -Limit(bits) <= CodeOf(x, ScaleFor(maximum, bits), bits) <= Limit(bits)
  {
    hide Limit, CodeOf, Nearest, Near;
    var s := ScaleFor(maximum, bits);
    CodeIsNearest(x, maximum, bits);
    Rescaled(x, s, CodeOf(x, s, bits));
  }

  lemma Rescaled(x: real, s: real, q: int)
    requires s > 0.0 && Abs(q as real - x / s) <= 0.5
    ensures Near(q, s, x)
  {
    hide Times, Near;
    var v := QuotientTimes(x, s);
    Offset(v, q as real, s);
    IsNear(q, s, x);
  }

  /** A product the steps below name without multiplying. */
  ghost function Times(a: real, b: real): real {
    a * b
  }

  lemma QuotientTimes(x: real, s: real) returns (v: real)
    requires s > 0.0
    ensures v == x / s && Times(v, s) == x
  {
    v := x / s;
  }

  lemma IsNear(q: int, s: real, x: real)
    ensures Near(q, s, x) <==> Abs(Times(q as real, s) - x) <= s / 2.0
  {
  }

  lemma Offset(v: real, r: real, s: real)
    requires s > 0.0 && -0.5 <= r - v <= 0.5
    ensures Abs(Times(r, s) - Times(v, s)) <= s / 2.0
  {
    hide Times;
    Difference(r, v, s);
    Bounded(r - v, s);
  }

  lemma Difference(a: real, b: real, s: real)
    ensures Times(a - b, s) == Times(a, s) - Times(b, s)
  {
  }

  lemma Bounded(d: real, s: real)
    requires s > 0.0 && -0.5 <= d <= 0.5
    ensures -s / 2.0 <= Times(d, s) <= s / 2.0
  {
    hide Times;
    AtMostHalf(d, s);
    AtMostHalf(-d, s);
    Opposite(d, s);
  }

  lemma AtMostHalf(d: real, s: real)
    requires s > 0.0 && d <= 0.5
    ensures Times(d, s) <= s / 2.0
  {
    Scaled(d, 0.5, s);
  }

  lemma Opposite(d: real, s: real)
    ensures Times(-d, s) == -Times(d, s)
  {
  }

  // ---------------------------------------------------------------- bytes

  /** Two's complement in `bits` bits. */
  function Field(q: int, bits: nat): nat {
    if bits == 8 then q % 256 else q % 16
  }

  /** Entry `j` of a byte: the low nibble holds the even entries. */
  function Unpack(byte: nat, j: nat, bits: nat): int {
    if bits == 8 then
      var u := byte % 256; if u >= 128 then u - 256 else u
    else
      var u := if j % 2 == 0 then byte % 16 else byte / 16 % 16; if u >= 8 then u - 16 else u
  }

  /** A byte, or a half of one, is read as the number in range that has these bits. */
  lemma UnpackIsSigned(byte: nat, j: nat)
    requires byte < 256
    ensures -128 <= Unpack(byte, j, 8) < 128 && Unpack(byte, j, 8) % 256 == byte
    ensures -8 <= Unpack(byte, j, 4) < 8
    ensures Unpack(byte, j, 4) % 16 == if j % 2 == 0 then byte % 16 else byte / 16
  {
  }

  lemma UnpackByte(q: int)
    requires -127 <= q <= 127
    ensures Unpack(Field(q, 8), 0, 8) == q
  {
  }

  lemma Nibbles(low: nat, high: nat)
    requires low < 16 && high < 16
    ensures (low + 16 * high) % 16 == low && (low + 16 * high) / 16 % 16 == high
  {
  }

  lemma Signed(q: int)
    requires -7 <= q <= 7
    ensures 0 <= Field(q, 4) < 16 && q == if Field(q, 4) >= 8 then Field(q, 4) - 16 else Field(q, 4)
  {
  }

  /** Unpacking gives back the codes packed into a byte. */
  lemma UnpackField(q: int, low: int, high: int, bits: nat)
    requires bits == 4 || bits == 8
    requires -Limit(bits) <= q <= Limit(bits) && -Limit(bits) <= low <= Limit(bits)
    requires -Limit(bits) <= high <= Limit(bits)
    ensures bits == 8 ==> Unpack(Field(q, 8), 0, 8) == q
    ensures bits == 4 ==> Unpack(Field(low, 4) + 16 * Field(high, 4), 0, 4) == low
    ensures bits == 4 ==> Unpack(Field(low, 4) + 16 * Field(high, 4), 1, 4) == high
  {
    if bits == 8 {
      hide Unpack, Field;
      UnpackByte(q);
    } else {
      hide Field;
      Signed(low);
      Signed(high);
      Nibbles(Field(low, 4), Field(high, 4));
    }
  }

  // ---------------------------------------------------------------- kernels

  predicate RowsOk(width: nat, bits: nat) {
    (bits == 4 || bits == 8) && width % PerByte(bits) == 0
  }

  function Stride(width: nat, bits: nat): nat {
    width / PerByte(bits)
  }

  /** The largest magnitude of a row. */
  method Maximum(input: seq<real>) returns (m: real)
    ensures IsMaximum(input, m)
  {
    m := 0.0;
    for j := 0 to |input|
      invariant m >= 0.0 && (forall i | 0 <= i < j :: Abs(input[i]) <= m)
      invariant m == 0.0 || exists i | 0 <= i < j :: Abs(input[i]) == m
    {
      if Abs(input[j]) > m {
        m := Abs(input[j]);
      }
    }
  }

  /** Byte `b` of a row; its nibbles do not overlap, so or-ing them in adds them. */
  function ByteFor(input: seq<real>, scale: real, bits: nat, b: nat): nat
    requires scale > 0.0 && RowsOk(|input|, bits) && b < Stride(|input|, bits)
  {
    if bits == 8 then Field(CodeOf(input[b], scale, 8), 8)
    else Field(CodeOf(input[2 * b], scale, 4), 4) + 16 * Field(CodeOf(input[2 * b + 1], scale, 4), 4)
  }

  class Cache {
    const width: nat
    const capacity: nat
    const bits: nat
    const bytes: array<nat>
    const scales: array<real>

    ghost predicate Valid()
    {
      RowsOk(width, bits) && bytes.Length == capacity * Stride(width, bits) && scales.Length == capacity
    }

    constructor (width: nat, capacity: nat, bits: nat)
      requires RowsOk(width, bits)
      ensures Valid() && this.width == width && this.capacity == capacity && this.bits == bits
      ensures fresh(bytes) && fresh(scales)
    {
      this.width, this.capacity, this.bits := width, capacity, bits;
      Arith.MulPos(capacity, Stride(width, bits));
      bytes := new nat[capacity * Stride(width, bits)];
      scales := new real[capacity];
    }

    /** The bytes of a row. */
    ghost function Row(row: nat): (r: seq<nat>)
      requires Valid() && row < capacity
      reads bytes
      ensures |r| == Stride(width, bits)
    {
      RowInside(row, capacity, Stride(width, bits));
      bytes[row * Stride(width, bits)..(row + 1) * Stride(width, bits)]
    }

    /** A row that was stored with this input. */
    ghost predicate Holds(row: nat, input: seq<real>)
      requires Valid()
      reads bytes, scales
    {
      && row < capacity && |input| == width && scales[row] > 0.0
      && (exists m :: IsMaximum(input, m) && scales[row] == ScaleFor(m, bits))
      && (forall b: nat | b < Stride(width, bits) :: Row(row)[b] == ByteFor(input, scales[row], bits, b))
    }

    /** Stores one row; a position outside the cache stores nothing. */
    method Quantize(input: seq<real>, row: int)
      requires Valid() && |input| == width
      modifies bytes, scales
      ensures 0 <= row < capacity ==> Holds(row, input)
      ensures forall r: nat | r < capacity && r != row :: Row(r) == old(Row(r)) && scales[r] == old(scales[r])
    {
      if row < 0 || row >= capacity {
        return;
      }
      var maximum := Maximum(input);
      var scale := ScaleFor(maximum, bits);
      scales[row] := scale;
      StoreBytes(input, row, scale);
    }

    method StoreBytes(input: seq<real>, row: nat, scale: real)
      requires Valid() && |input| == width && row < capacity && scale > 0.0
      modifies bytes
      ensures forall b: nat | b < Stride(width, bits) :: Row(row)[b] == ByteFor(input, scale, bits, b)
      ensures forall r: nat | r < capacity && r != row :: Row(r) == old(Row(r))
    {
      var stride := Stride(width, bits);
      RowInside(row, capacity, stride);
      for b := 0 to stride
        invariant forall i: nat | i < b :: bytes[row * stride + i] == ByteFor(input, scale, bits, i)
        invariant forall k | 0 <= k < bytes.Length && !(row * stride <= k < row * stride + b) ::
          bytes[k] == old(bytes[k])
      {
        bytes[row * stride + b] := ByteFor(input, scale, bits, b);
      }
      forall r: nat | r < capacity && r != row ensures Row(r) == old(Row(r)) {
        RowInside(r, capacity, stride);
        RowsApart(r, row, stride);
      }
    }
  }

  lemma RowsApart(r: nat, s: nat, stride: nat)
    requires r != s
    ensures (r + 1) * stride <= s * stride || (s + 1) * stride <= r * stride
  {
    if r < s {
      Arith.MulMono(r + 1, s, stride);
    } else {
      Arith.MulMono(s + 1, r, stride);
    }
  }

  lemma RowInside(row: nat, capacity: nat, stride: nat)
    requires row < capacity
    ensures 0 <= row * stride <= (row + 1) * stride <= capacity * stride
    ensures (row + 1) * stride == row * stride + stride
  {
    Arith.MulPos(row, stride);
    Arith.MulMono(row + 1, capacity, stride);
    Arith.Distribute(row, 1, stride);
  }

  /** The entry a stored byte stands for. */
  ghost function Entry(c: Cache, row: nat, j: nat): int
    requires c.Valid() && row < c.capacity && j < c.width
    reads c.bytes
  {
    Unpack(c.Row(row)[j / PerByte(c.bits)], j, c.bits)
  }

  lemma OnlyParity(byte: nat, j: nat, bits: nat)
    ensures Unpack(byte, j, bits) == Unpack(byte, if bits == 8 then 0 else j % 2, bits)
  {
  }

  /** Unpacking what was packed gives each code back. */
  lemma CodesReturn(c: Cache, row: nat, input: seq<real>, j: nat)
    requires c.Valid() && c.Holds(row, input) && j < c.width
    ensures Entry(c, row, j) == CodeOf(input[j], c.scales[row], c.bits)
  {
    hide CodeOf, ScaleFor, Unpack, Field, Near;
    OnlyParity(c.Row(row)[j / PerByte(c.bits)], j, c.bits);
    var m :| IsMaximum(input, m) && c.scales[row] == ScaleFor(m, c.bits);
    var b := j / PerByte(c.bits);
    HalfScale(input[j], m, c.bits);
    assert c.Row(row)[b] == ByteFor(input, c.scales[row], c.bits, b);
    if c.bits == 8 {
      UnpackField(CodeOf(input[j], c.scales[row], 8), 0, 0, 8);
    } else {
      HalfScale(input[2 * b], m, 4);
      HalfScale(input[2 * b + 1], m, 4);
      UnpackField(0, CodeOf(input[2 * b], c.scales[row], 4), CodeOf(input[2 * b + 1], c.scales[row], 4), 4);
    }
  }

  /** Main: a stored row comes back, entry by entry, to within half its scale. */
  lemma RowReturns(c: Cache, row: nat, input: seq<real>, j: nat)
    requires c.Valid() && c.Holds(row, input) && j < c.width
    ensures Near(Entry(c, row, j), c.scales[row], input[j])
  {
    hide CodeOf, ScaleFor, Entry, ByteFor, Limit, Near;
    var m :| IsMaximum(input, m) && c.scales[row] == ScaleFor(m, c.bits);
    CodesReturn(c, row, input, j);
    HalfScale(input[j], m, c.bits);
  }

  /** What storing a product makes of it: its rounding to FP32 and to BF16. */
  type Store = real -> real

  function Valued(q: int, scale: real): real {
    q as real * scale
  }

  /** What the attention operator is given for an entry: its stored value, and a stored zero behind the last row. */
  ghost function Restored(c: Cache, last: int, store: Store, row: nat, j: nat): real
    requires c.Valid() && row < c.capacity && j < c.width
    reads c.bytes, c.scales
  {
    store(if row <= last then Valued(Entry(c, row, j), c.scales[row]) else 0.0)
  }

  lemma InStride(j: nat, width: nat, bits: nat)
    requires RowsOk(width, bits) && j < width
    ensures 0 <= j / PerByte(bits) < Stride(width, bits)
  {
  }

  function Base(row: nat, width: nat): nat {
    Arith.MulPos(row, width);
    row * width
  }

  ghost predicate CellRestored(c: Cache, last: int, store: Store, row: nat, j: nat, output: seq<real>)
    requires c.Valid() && row < c.capacity && j < c.width
    reads c.bytes, c.scales
  {
    Base(row, c.width) + j < |output| && output[Base(row, c.width) + j] == Restored(c, last, store, row, j)
  }

  ghost predicate RowRestored(c: Cache, last: int, store: Store, row: nat, output: seq<real>)
    requires c.Valid()
    reads c.bytes, c.scales
  {
    row < c.capacity && forall j: nat | j < c.width :: CellRestored(c, last, store, row, j, output)
  }

  lemma BaseInside(row: nat, capacity: nat, width: nat)
    requires row < capacity
    ensures Base(row, width) + width == Base(row + 1, width) <= capacity * width
  {
    RowInside(row, capacity, width);
  }

  lemma RestoredIs(c: Cache, last: int, store: Store, row: nat, j: nat, q: int, scale: real)
    requires c.Valid() && row < c.capacity && j < c.width
    requires if row <= last then q == Entry(c, row, j) && scale == c.scales[row] else q == 0 && scale == 0.0
    ensures Restored(c, last, store, row, j) == store(Valued(q, scale))
  {
    if row > last {
      assert Valued(q, scale) == 0.0;
    } else {
      hide Valued, Entry;
    }
  }

  lemma EntryAt(c: Cache, row: nat, j: nat)
    requires c.Valid() && row < c.capacity && j < c.width
    ensures 0 <= row * Stride(c.width, c.bits) + j / PerByte(c.bits) < c.bytes.Length
    ensures Entry(c, row, j) == Unpack(c.bytes[row * Stride(c.width, c.bits) + j / PerByte(c.bits)], j, c.bits)
  {
    hide Unpack, Stride;
    InStride(j, c.width, c.bits);
    RowInside(row, c.capacity, Stride(c.width, c.bits));
  }

  method DequantizeRow(c: Cache, last: int, store: Store, row: nat, output: array<real>)
    requires c.Valid() && row < c.capacity && output.Length == c.capacity * c.width && output != c.scales
    modifies output
    ensures RowRestored(c, last, store, row, output[..])
    ensures forall k | 0 <= k < output.Length && !(Base(row, c.width) <= k < Base(row + 1, c.width)) ::
      output[k] == old(output[k])
  {
    hide Unpack, Limit, Base, Entry, Restored, Valued;
    BaseInside(row, c.capacity, c.width);
    var base := Base(row, c.width);
    var scale := if row <= last then c.scales[row] else 0.0;
    for j := 0 to c.width
      invariant forall i: nat | i < j :: output[base + i] == Restored(c, last, store, row, i)
      invariant forall k | 0 <= k < output.Length && !(base <= k < base + j) :: output[k] == old(output[k])
    {
      var q := 0;
      if row <= last {
        EntryAt(c, row, j);
        q := Unpack(c.bytes[row * Stride(c.width, c.bits) + j / PerByte(c.bits)], j, c.bits);
      }
      RestoredIs(c, last, store, row, j, q, scale);
      output[base + j] := store(Valued(q, scale));
    }
    forall j: nat | j < c.width ensures CellRestored(c, last, store, row, j, output[..]) {
      assert output[base + j] == Restored(c, last, store, row, j);
    }
  }

  /** Writing one row leaves every other row restored that was. */
  lemma OthersRestored(c: Cache, last: int, store: Store, row: nat, before: seq<real>, after: seq<real>, r: nat)
    requires c.Valid() && row < c.capacity && r < c.capacity && r != row && |after| == |before|
    requires forall k | 0 <= k < |after| && !(Base(row, c.width) <= k < Base(row + 1, c.width)) :: after[k] == before[k]
    requires RowRestored(c, last, store, r, before)
    ensures RowRestored(c, last, store, r, after)
  {
    hide Restored, Base;
    BasesApart(r, row, c.width);
    BaseInside(r, c.capacity, c.width);
    forall j: nat | j < c.width ensures CellRestored(c, last, store, r, j, after) {
      assert CellRestored(c, last, store, r, j, before);
    }
  }

  lemma BasesApart(r: nat, s: nat, width: nat)
    requires r != s
    ensures Base(r + 1, width) <= Base(s, width) || Base(s + 1, width) <= Base(r, width)
  {
    RowsApart(r, s, width);
  }

  /** Rows are dealt to blocks in turn; a block restores its own and leaves the others as they were. */
  method DequantizeBlock(c: Cache, last: int, store: Store, block: nat, blocks: nat, output: array<real>)
    requires c.Valid() && block < blocks && output.Length == c.capacity * c.width && output != c.scales
    modifies output
    ensures forall r: nat | r < c.capacity && r % blocks == block :: RowRestored(c, last, store, r, output[..])
    ensures forall r: nat | r < c.capacity && r % blocks != block && RowRestored(c, last, store, r, old(output[..])) ::
      RowRestored(c, last, store, r, output[..])
  {
    hide RowRestored;
    var row, turn := block, 0;
    while row < c.capacity
      invariant row == turn * blocks + block && turn >= 0
      invariant forall r: nat | r < c.capacity && r % blocks == block && r < row ::
        RowRestored(c, last, store, r, output[..])
      invariant forall r: nat | r < c.capacity && r % blocks != block ::
        RowRestored(c, last, store, r, old(output[..])) ==> RowRestored(c, last, store, r, output[..])
    {
      ghost var before := output[..];
      DequantizeRow(c, last, store, row, output);
      forall r: nat | r < c.capacity && r != row && RowRestored(c, last, store, r, before)
        ensures RowRestored(c, last, store, r, output[..])
      {
        OthersRestored(c, last, store, row, before, output[..], r);
      }
      Arith.DivUnique(row, blocks, turn, block);
      forall r: nat | row < r < row + blocks ensures r % blocks != block {
        NotDealt(row, r, turn, block, blocks);
      }
      Arith.Distribute(turn, 1, blocks);
      row, turn := row + blocks, turn + 1;
    }
  }

  lemma NotDealt(row: nat, r: nat, turn: nat, block: nat, blocks: nat)
    requires block < blocks && row == turn * blocks + block && row < r < row + blocks
    ensures r % blocks != block
  {
    Arith.Distribute(turn, 1, blocks);
    if r < (turn + 1) * blocks {
      Arith.DivUnique(r, blocks, turn, r - turn * blocks);
    } else {
      Arith.DivUnique(r, blocks, turn + 1, r - (turn + 1) * blocks);
    }
  }

  /**
   Main: for any number of blocks, run in any order, every row of the cache is restored: a row that was stored comes
   back to within half its step, and behind the last row there are stored zeros.
   */
  method Dequantize(c: Cache, last: int, store: Store, blocks: nat, order: seq<int>, output: array<real>)
    requires c.Valid() && blocks > 0 && output.Length == c.capacity * c.width && output != c.scales
    requires |order| == blocks && Injective(order) && forall k | 0 <= k < blocks :: 0 <= order[k] < blocks
    modifies output
    ensures forall r: nat | r < c.capacity :: RowRestored(c, last, store, r, output[..])
    ensures forall r: nat, input | r <= last && c.Holds(r, input) ::
      RowBack(input, c.bits, store, output[..], r * c.width)
    ensures forall r: nat | last < r < c.capacity :: RowEmpty(c.width, store, output[..], r * c.width)
  {
    hide RowRestored, RowBack, RowEmpty;
    for k := 0 to blocks
      invariant forall r: nat | r < c.capacity && r % blocks in order[..k] ::
        RowRestored(c, last, store, r, output[..])
    {
      DequantizeBlock(c, last, store, order[k], blocks, output);
      assert order[..k + 1] == order[..k] + [order[k]];
    }
    PigeonHole(order);
    assert order[..blocks] == order;
    forall r: nat | r < c.capacity ensures RowRestored(c, last, store, r, output[..]) {
      Arith.DivMod(r, blocks);
    }
    forall r: nat, input | r <= last && c.Holds(r, input)
      ensures RowBack(input, c.bits, store, output[..], r * c.width)
    {
      RestoredIsBack(c, last, store, r, input, output[..]);
    }
    forall r: nat | last < r < c.capacity ensures RowEmpty(c.width, store, output[..], r * c.width) {
      BehindIsEmpty(c, last, store, r, output[..]);
    }
  }

  // ------------------------------------------------------- there and back again

  ghost predicate Bounds(input: seq<real>, m: real) {
    forall i | 0 <= i < |input| :: -m <= input[i] <= m
  }

  /** Off by no more than one part in 254, or in 14, of whatever bounds the row. */
  ghost predicate Back(input: seq<real>, bits: nat, j: nat, v: real)
    requires j < |input|
  {
    forall m | Bounds(input, m) :: -m <= (v - input[j]) * (if bits == 8 then 254.0 else 14.0) <= m
  }

  ghost predicate CellIs(output: seq<real>, base: int, j: nat, x: real) {
    0 <= base + j < |output| && output[base + j] == x
  }

  /** The cells of a row hold what storing makes of values that are back. */
  ghost predicate RowBack(input: seq<real>, bits: nat, store: Store, output: seq<real>, base: int) {
    forall j: nat | j < |input| :: CellBack(input, bits, store, output, base, j)
  }

  ghost predicate CellBack(input: seq<real>, bits: nat, store: Store, output: seq<real>, base: int, j: nat)
    requires j < |input|
  {
    exists v :: Back(input, bits, j, v) && CellIs(output, base, j, store(v))
  }

  /** The cells of a row behind the last one. */
  ghost predicate RowEmpty(width: nat, store: Store, output: seq<real>, base: int) {
    forall j: nat | j < width :: CellIs(output, base, j, store(0.0))
  }

  lemma HalfIsBack(input: seq<real>, bits: nat, j: nat, s: real, v: real, m: real)
    requires j < |input| && IsMaximum(input, m) && s == ScaleFor(m, bits) && Abs(v - input[j]) <= s / 2.0
    requires m == 0.0 ==> v == 0.0
    ensures Back(input, bits, j, v)
  {
    var error := (v - input[j]) * (if bits == 8 then 254.0 else 14.0);
    ErrorWithin(v - input[j], m, bits, s);
    hide ScaleFor;
    forall b | Bounds(input, b) ensures -b <= error <= b {
      BoundCovers(input, m, b);
    }
  }

  /** Half a scale, as a part of the largest magnitude. */
  lemma ErrorWithin(d: real, m: real, bits: nat, s: real)
    requires m >= 0.0 && s == ScaleFor(m, bits) && Abs(d) <= s / 2.0 && (m == 0.0 ==> d == 0.0)
    ensures -m <= d * (if bits == 8 then 254.0 else 14.0) <= m
  {
  }

  lemma BoundCovers(input: seq<real>, m: real, b: real)
    requires IsMaximum(input, m) && Bounds(input, b) && input != []
    ensures m <= b
  {
    if m == 0.0 {
      assert -b <= input[0] <= b;
    }
  }

  lemma ValueBack(c: Cache, last: int, store: Store, row: nat, input: seq<real>, j: nat) returns (v: real)
    requires c.Valid() && c.Holds(row, input) && j < c.width && row <= last
    ensures Back(input, c.bits, j, v) && Restored(c, last, store, row, j) == store(v)
  {
    hide ScaleFor, Entry, ByteFor, Back, CodeOf;
    var m :| IsMaximum(input, m) && c.scales[row] == ScaleFor(m, c.bits);
    v := Valued(Entry(c, row, j), c.scales[row]);
    RowReturns(c, row, input, j);
    if m == 0.0 {
      CodesReturn(c, row, input, j);
      ZeroCode(input[j], c.bits);
    }
    HalfIsBack(input, c.bits, j, c.scales[row], v, m);
  }

  lemma ZeroCode(x: real, bits: nat)
    requires Abs(x) <= 0.0
    ensures CodeOf(x, ScaleFor(0.0, bits), bits) == 0
  {
  }

  /** Main: what was stored comes back. */
  lemma RestoredIsBack(c: Cache, last: int, store: Store, row: nat, input: seq<real>, output: seq<real>)
    requires c.Valid() && c.Holds(row, input) && row <= last && RowRestored(c, last, store, row, output)
    requires |output| == c.capacity * c.width
    ensures RowBack(input, c.bits, store, output, row * c.width)
  {
    hide Back, Restored;
    RowInside(row, c.capacity, c.width);
    forall j: nat | j < |input| ensures CellBack(input, c.bits, store, output, row * c.width, j) {
      var v := ValueBack(c, last, store, row, input, j);
      assert CellRestored(c, last, store, row, j, output);
      assert CellIs(output, row * c.width, j, store(v));
    }
  }

  lemma BehindIsEmpty(c: Cache, last: int, store: Store, row: nat, output: seq<real>)
    requires c.Valid() && row < c.capacity && row > last && RowRestored(c, last, store, row, output)
    requires |output| == c.capacity * c.width
    ensures RowEmpty(c.width, store, output, row * c.width)
  {
    RowInside(row, c.capacity, c.width);
    forall j: nat | j < c.width ensures CellIs(output, row * c.width, j, store(0.0)) {
      assert CellRestored(c, last, store, row, j, output);
    }
  }

  // ------------------------------------------------------------ BF16 stores

  const BINADE := 0x80_0000
  const INFINITY := 0x7f80_0000

  /** The 32-bit pattern of a BF16. */
  function ReadBf16(v: nat): nat {
    v * 65536
  }

  /** Adding half an ulp of the upper half, less one for an even one, in 32 bits. */
  function WriteBf16(u: nat): nat {
    (u + 0x7fff + u / 65536 % 2) % 0x1_0000_0000 / 65536
  }

  lemma WriteUndoesRead(v: nat)
    requires v < 65536
    ensures WriteBf16(ReadBf16(v)) == v
  {
    assert v * 65536 / 65536 == v;
  }

  /** The sign bit is carried through. */
  lemma SignKept(u: nat)
    requires u < INFINITY
    ensures WriteBf16(u + 0x8000_0000) == WriteBf16(u) + 0x8000
  {
    var h, l := u / 65536, u % 65536;
    assert u == h * 65536 + l;
    Carried(h, l, 0);
    Carried(h, l, 0x8000);
  }

  lemma Carried(h: nat, l: nat, sign: nat)
    requires h < 0x7f80 && l < 65536 && (sign == 0 || sign == 0x8000)
    ensures WriteBf16((h + sign) * 65536 + l) == sign + h + (l + 0x7fff + h % 2) / 65536
  {
    var g := h + sign;
    assert (g * 65536 + l) / 65536 == g;
    assert g % 2 == h % 2;
    assert g * 65536 + l + 0x7fff + g % 2 < 0x1_0000_0000;
  }

  function Pow2(n: nat): (p: nat)
    ensures p > 0
  {
    if n == 0 then 1 else 2 * Pow2(n - 1)
  }

  /** The weight of a unit in the last place: subnormals share the lowest exponent. */
  function Unit(e: nat): (d: nat)
    ensures d > 0
  {
    Pow2(if e == 0 then 0 else e - 1)
  }

  /** The value of a positive binary32 pattern, in the smallest subnormal. */
  function Value(u: nat): nat {
    var e, m := u / BINADE, u % BINADE;
    Unit(e) * (if e == 0 then m else BINADE + m)
  }

  /** Between two neighbouring BF16 values the binary32 values are evenly spaced. */
  lemma EvenlySpaced(h: nat, l: nat)
    requires l <= 65536
    ensures Value(h * 65536 + l) == Value(h * 65536) + l * Unit(h * 65536 / BINADE)
  {
    var u := h * 65536;
    var e, m := u / BINADE, u % BINADE;
    assert m % 65536 == 0;
    if m + l < BINADE {
      assert (u + l) / BINADE == e && (u + l) % BINADE == m + l;
      Arith.Distribute(if e == 0 then m else BINADE + m, l, Unit(e));
    } else {
      assert m + l == BINADE && (u + l) / BINADE == e + 1 && (u + l) % BINADE == 0;
      NextBinade(e, m, l);
    }
  }

  lemma NextBinade(e: nat, m: nat, l: nat)
    requires m + l == BINADE
    ensures Unit(e + 1) * BINADE == Unit(e) * (if e == 0 then m else BINADE + m) + l * Unit(e)
  {
    Arith.Distribute(if e == 0 then m else BINADE + m, l, Unit(e));
    if e > 0 {
      assert Unit(e + 1) == 2 * Unit(e);
      Arith.Assoc(Unit(e), 2, BINADE);
    }
  }

  lemma {:induction false} ValueGrows(a: nat, b: nat)
    requires a <= b
    ensures Value(a * 65536) <= Value(b * 65536)
    decreases b
  {
    if a < b {
      ValueGrows(a, b - 1);
      EvenlySpaced(b - 1, 65536);
      Arith.MulPos(65536, Unit((b - 1) * 65536 / BINADE));
    }
  }

  function Gap(a: int, b: int): int {
    if a <= b then b - a else a - b
  }

  /** Main: on finite values the store is round-half-to-even of section 4.3.1 of IEEE 754-2019. */
  lemma RoundsHalfToEven(u: nat, x: nat)
    requires u < INFINITY && x <= INFINITY / 65536
    ensures var r := WriteBf16(u);
      && r <= INFINITY / 65536
      && Gap(Value(ReadBf16(r)), Value(u)) <= Gap(Value(ReadBf16(x)), Value(u))
      && (Gap(Value(ReadBf16(r)), Value(u)) == Gap(Value(ReadBf16(x)), Value(u)) && x != r ==> r % 2 == 0)
  {
    hide Value, WriteBf16, Unit;
    var h, l := u / 65536, u % 65536;
    var d := Unit(h * 65536 / BINADE);
    assert u == h * 65536 + l;
    EvenlySpaced(h, l);
    EvenlySpaced(h, 65536);
    Picked(u, h, l);
    Halves(l, d);
    if x < h {
      StrictlyBelow(x, h);
    }
    if x > h + 1 {
      StrictlyBelow(h + 1, x);
    }
  }

  /** The two ends of the stretch, seen from its `l`-th step. */
  lemma Halves(l: nat, d: nat)
    requires l <= 65536 && d > 0
    ensures l * d + (65536 - l) * d == 65536 * d && l * d >= 0 && (65536 - l) * d >= 0
    ensures l < 0x8000 ==> l * d < (65536 - l) * d
    ensures l > 0x8000 ==> l * d > (65536 - l) * d
  {
    Arith.Distribute(l, 65536 - l, d);
    Arith.MulPos(l, d);
    Arith.MulPos(65536 - l, d);
    if l < 0x8000 {
      Arith.MulMono(l + 1, 65536 - l, d);
      Arith.Distribute(l, 1, d);
    }
    if l > 0x8000 {
      Arith.MulMono(65536 - l + 1, l, d);
      Arith.Distribute(65536 - l, 1, d);
    }
  }

  lemma Picked(u: nat, h: nat, l: nat)
    requires u < INFINITY && u == h * 65536 + l && l < 65536
    ensures WriteBf16(u) == if l < 0x8000 || (l == 0x8000 && h % 2 == 0) then h else h + 1
  {
    assert u / 65536 == h;
  }

  lemma StrictlyBelow(a: nat, b: nat)
    requires a < b
    ensures Value(a * 65536) < Value(b * 65536)
  {
    ValueGrows(a, b - 1);
    EvenlySpaced(b - 1, 65536);
    Arith.MulMono(1, Unit((b - 1) * 65536 / BINADE), 65536);
  }
}
