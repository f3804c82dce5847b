/** Loading parameters through a bounded staging buffer, all or nothing. */
module Loader {
  import opened Requests
  import opened LoadPlan
  import Arith

  type Bytes = seq<Byte>

  const MAX_STAGING := 64 * 1024 * 1024

  // ------------------------------------------------------- what must be loaded

  /** Where byte `k` of a slice lies in its file: rows of `rowBytes`, `strideBytes` apart. */
  function SourceAt(op: Slice, k: nat): nat {
    if op.rowBytes == 0 then op.offset + k
    else Strided(op, k)
  }

  function Strided(op: Slice, k: nat): nat
    requires op.rowBytes > 0
  {
    Arith.DivMod(k, op.rowBytes);
    QuotientPositive(k, op.rowBytes);
    Arith.MulPos(k / op.rowBytes, op.strideBytes);
    op.offset + k / op.rowBytes * op.strideBytes + k % op.rowBytes
  }

  lemma QuotientPositive(x: nat, d: nat)
    requires d > 0
    ensures x / d >= 0
  {
    Arith.DivMod(x, d);
    if x / d < 0 {
      Arith.MulMono(x / d, -1, d);
    }
  }

  predicate Fits(op: Slice, file: Bytes) {
    SourceSpan(op).Some? && op.offset + SourceSpan(op).value <= |file|
  }

  /** Every byte of an accepted slice lies inside its source span. */
  lemma InsideSpan(op: Slice, k: nat)
    requires SourceSpan(op).Some? && k < op.bytes
    ensures op.offset <= SourceAt(op, k) < op.offset + SourceSpan(op).value
  {
    if op.rowBytes > 0 {
      var rows := op.bytes / op.rowBytes - 1;
      Arith.DivMod(k, op.rowBytes);
      Arith.DivMod(op.bytes, op.rowBytes);
      QuotientPositive(k, op.rowBytes);
      Arith.MulPos(k / op.rowBytes, op.strideBytes);
      if k / op.rowBytes > rows {
        Arith.MulMono(rows + 1, k / op.rowBytes, op.rowBytes);
      }
      Arith.MulMono(k / op.rowBytes, rows, op.strideBytes);
    }
  }

  /** The span is no longer than it has to be: it ends with the last byte of the slice. */
  lemma SpanIsTight(op: Slice)
    requires SourceSpan(op).Some? && op.bytes > 0
    ensures SourceAt(op, op.bytes - 1) == op.offset + SourceSpan(op).value - 1
  {
    if op.rowBytes > 0 {
      LastOfRows(op);
    }
  }

  lemma LastOfRows(op: Slice)
    requires op.rowBytes > 0 && op.bytes > 0 && op.bytes % op.rowBytes == 0
    ensures op.bytes / op.rowBytes >= 1
    ensures SourceAt(op, op.bytes - 1)
      == op.offset + (op.bytes / op.rowBytes - 1) * op.strideBytes + op.rowBytes - 1
  {
    var rows := op.bytes / op.rowBytes - 1;
    RowCount(op.bytes, op.rowBytes);
    Arith.DivMod(op.bytes, op.rowBytes);
    Arith.Distribute(rows, 1, op.rowBytes);
    Arith.DivUnique(op.bytes - 1, op.rowBytes, rows, op.rowBytes - 1);
  }

  /**
   Exactly which slices have a span: whole rows of whole elements that do not run into one another, ending within
   64 bits; or, without rows, any stretch that states no stride.
   */
  lemma SpanIff(op: Slice)
    ensures SourceSpan(op).Some? <==>
      if op.rowBytes == 0 then op.strideBytes == 0
      else
        && op.bytes > 0 && op.bytes % op.rowBytes == 0 && op.strideBytes >= op.rowBytes
        && op.rowBytes % Width(op.source) == 0 && op.strideBytes % Width(op.source) == 0
        && SourceAt(op, op.bytes - 1) - op.offset + 1 <= 0xffff_ffff_ffff_ffff
  {
    hide SourceAt, Width;
    if op.rowBytes > 0 && op.bytes > 0 && op.bytes % op.rowBytes == 0 {
      LastOfRows(op);
    }
  }

  /** Main: a slice that has a span fits its file if and only if every byte it names is in the file. */
  lemma FitsIff(op: Slice, file: Bytes)
    requires SourceSpan(op).Some? && op.bytes > 0
    ensures Fits(op, file) <==> forall k: nat | k < op.bytes :: SourceAt(op, k) < |file|
  {
    hide SourceAt, SourceSpan;
    SpanIsTight(op);
    if Fits(op, file) {
      forall k: nat | k < op.bytes ensures SourceAt(op, k) < |file| {
        InsideSpan(op, k);
      }
    }
  }

  function SourceByte(op: Slice, file: Bytes, k: nat): Byte
    requires Fits(op, file) && k < op.bytes
  {
    InsideSpan(op, k);
    file[SourceAt(op, k)]
  }

  /** The direct gather of a slice. */
  function Gather(op: Slice, file: Bytes): (g: Bytes)
    requires Fits(op, file)
    ensures |g| == op.bytes
  {
    seq(op.bytes, k requires 0 <= k < op.bytes => SourceByte(op, file, k))
  }

  /** Row by row, the gather is the file's columns. */
  lemma GatherIsStrided(op: Slice, file: Bytes, row: nat, column: nat)
    requires Fits(op, file) && 0 < op.rowBytes && column < op.rowBytes && row * op.rowBytes + column < op.bytes
    ensures row * op.rowBytes + column >= 0 && 0 <= op.offset + row * op.strideBytes + column < |file|
    ensures Gather(op, file)[row * op.rowBytes + column] == file[op.offset + row * op.strideBytes + column]
  {
    Arith.MulPos(row, op.rowBytes);
    Arith.MulPos(row, op.strideBytes);
    Arith.DivUnique(row * op.rowBytes + column, op.rowBytes, row, column);
    InsideSpan(op, row * op.rowBytes + column);
  }

  /** Without rows it is one stretch of the file. */
  lemma GatherIsStretch(op: Slice, file: Bytes)
    requires Fits(op, file) && op.rowBytes == 0
    ensures op.offset + op.bytes <= |file| && Gather(op, file) == file[op.offset..op.offset + op.bytes]
  {
  }

  /** BF16 is the upper half of an F32. */
  function WideByte(narrow: Bytes, k: nat): Byte
    requires |narrow| % 2 == 0 && k < 2 * |narrow|
  {
    if k % 4 < 2 then 0 else narrow[2 * (k / 4) + k % 4 - 2]
  }

  function Widen(narrow: Bytes): (wide: Bytes)
    requires |narrow| % 2 == 0
    ensures |wide| == 2 * |narrow|
  {
    seq(2 * |narrow|, k requires 0 <= k < 2 * |narrow| => WideByte(narrow, k))
  }

  function LittleEndian(b: Bytes): nat {
    if b == [] then 0 else b[0] + 256 * LittleEndian(b[1..])
  }

  /** Element by element, widening shifts the bits up by sixteen. */
  lemma WideningShifts(narrow: Bytes, e: nat)
    requires |narrow| % 2 == 0 && 2 * e + 2 <= |narrow|
    ensures LittleEndian(Widen(narrow)[4 * e..4 * e + 4]) == 65536 * LittleEndian(narrow[2 * e..2 * e + 2])
  {
    hide LittleEndian, WideByte;
    var w, s := Widen(narrow)[4 * e..4 * e + 4], narrow[2 * e..2 * e + 2];
    WideAt(narrow, e);
    FourBytes(w);
    TwoBytes(s);
  }

  lemma WideAt(narrow: Bytes, e: nat)
    requires |narrow| % 2 == 0 && 2 * e + 2 <= |narrow|
    ensures WideByte(narrow, 4 * e) == WideByte(narrow, 4 * e + 1) == 0
    ensures WideByte(narrow, 4 * e + 2) == narrow[2 * e] && WideByte(narrow, 4 * e + 3) == narrow[2 * e + 1]
  {
    Arith.DivUnique(4 * e, 4, e, 0);
    Arith.DivUnique(4 * e + 1, 4, e, 1);
    Arith.DivUnique(4 * e + 2, 4, e, 2);
    Arith.DivUnique(4 * e + 3, 4, e, 3);
  }

  lemma TwoBytes(b: Bytes)
    requires |b| == 2
    ensures LittleEndian(b) == b[0] as int + 256 * b[1] as int
  {
    assert LittleEndian(b[1..]) == b[1] + 256 * LittleEndian(b[1..][1..]);
  }

  lemma FourBytes(b: Bytes)
    requires |b| == 4
    ensures LittleEndian(b) == b[0] as int + 256 * b[1] as int + 65536 * (b[2] as int + 256 * b[3] as int)
  {
    TwoBytes(b[1..][1..]);
    assert LittleEndian(b[1..]) == b[1] + 256 * LittleEndian(b[1..][1..]);
  }

  /** The exponent is not all ones. */
  predicate FiniteAt(narrow: Bytes, e: nat)
    requires 2 * e + 2 <= |narrow|
  {
    !(narrow[2 * e + 1] % 128 == 127 && narrow[2 * e] >= 128)
  }

  /** The eight bits above the seven of the fraction. */
  lemma FiniteAtIff(narrow: Bytes, e: nat)
    requires 2 * e + 2 <= |narrow|
    ensures FiniteAt(narrow, e) <==> LittleEndian(narrow[2 * e..2 * e + 2]) / 128 % 256 != 255
  {
    var low, high := narrow[2 * e], narrow[2 * e + 1];
    TwoBytes(narrow[2 * e..2 * e + 2]);
    Exponent(low as int, high as int);
  }

  lemma Exponent(low: nat, high: nat)
    requires low < 256 && high < 256
    ensures (low + 256 * high) / 128 % 256 == (if low >= 128 then 1 else 0) + 2 * (high % 128)
  {
    var top := if low >= 128 then 1 else 0;
    Arith.DivMod(high, 128);
    Arith.DivUnique(low + 256 * high, 128, top + 2 * high, low - 128 * top);
    Arith.DivUnique(top + 2 * high, 256, high / 128, top + 2 * (high % 128));
  }

  ghost predicate Finite(narrow: Bytes) {
    forall e: nat | 2 * e + 2 <= |narrow| :: FiniteAt(narrow, e)
  }

  function Converts(op: Slice, p: Parameter): bool {
    op.source != p.dtype
  }

  /** The bytes parameter `p` should end up with. */
  function Tensor(op: Slice, p: Parameter, file: Bytes): Bytes
    requires Fits(op, file) && (Converts(op, p) ==> op.bytes % 2 == 0)
  {
    if Converts(op, p) then Widen(Gather(op, file)) else Gather(op, file)
  }

  ghost predicate Loadable(op: Slice, p: Parameter, file: Bytes) {
    && Fits(op, file) && op.bytes % Width(op.source) == 0 && op.bytes > 0
    && (Converts(op, p) ==> op.source == Bf16 && p.dtype == F32)
  }

  // ---------------------------------------------------------------- one chunk

  /**
   Reads `count` file bytes at `from`, inside the span from `low` to `high`, into the staging buffer;
   a file system that `refuses` may fail the read.
   */
  method ReadAt(
      file: Bytes, from: nat, staging: array<Byte>, at: nat, count: nat, refuses: bool,
      ghost low: nat, ghost high: nat)
    returns (ok: bool)
    requires low <= from && from + count <= high <= |file| && at + count <= staging.Length
    modifies staging
    ensures staging[..at] == old(staging[..at]) && (!refuses ==> ok)
    ensures ok ==> staging[at..at + count] == file[from..from + count]
  {
    ok := *;
    if refuses && !ok {
      return;
    }
    ok := true;
    for i := 0 to count
      invariant staging[..at] == old(staging[..at])
      invariant staging[at..at + i] == file[from..from + i]
    {
      staging[at + i] := file[from + i];
      assert staging[at..at + (i + 1)] == staging[at..at + i] + [file[from + i]];
      assert file[from..from + (i + 1)] == file[from..from + i] + [file[from + i]];
    }
  }

  lemma SameRow(op: Slice, k: nat, t: nat)
    requires op.rowBytes > 0 ==> k % op.rowBytes + t < op.rowBytes
    ensures SourceAt(op, k + t) == SourceAt(op, k) + t
  {
    if op.rowBytes > 0 {
      Arith.DivMod(k, op.rowBytes);
      Arith.DivUnique(k + t, op.rowBytes, k / op.rowBytes, k % op.rowBytes + t);
    }
  }

  /** Up to the end of a row, file bytes are contiguous, and inside the source span. */
  lemma Contiguous(op: Slice, file: Bytes, k: nat, take: nat)
    requires Fits(op, file) && take > 0 && k + take <= op.bytes
    requires op.rowBytes > 0 ==> k % op.rowBytes + take <= op.rowBytes
    ensures op.offset <= SourceAt(op, k) && SourceAt(op, k) + take <= op.offset + SourceSpan(op).value
    ensures Gather(op, file)[k..k + take] == file[SourceAt(op, k)..SourceAt(op, k) + take]
  {
    hide SourceAt, SourceSpan;
    SameRow(op, k, take - 1);
    InsideSpan(op, k + (take - 1));
    InsideSpan(op, k);
    var part := Gather(op, file)[k..k + take];
    forall t: nat | t < take ensures part[t] == file[SourceAt(op, k) + t] {
      SameRow(op, k, t);
      assert part[t] == SourceByte(op, file, k + t);
    }
  }

  lemma SliceJoin(s: Bytes, a: nat, b: nat, c: nat)
    requires a <= b <= c <= |s|
    ensures s[a..c] == s[a..b] + s[b..c]
  {
  }

  /** The piece of one source row that fits behind the first `filled` bytes of a chunk of `count`. */
  method FillRow(op: Slice, file: Bytes, staging: array<Byte>, done: nat, filled: nat, count: nat, refuses: bool)
    returns (ok: bool, take: nat)
    requires Fits(op, file) && op.rowBytes > 0 && filled < count <= staging.Length && done + count <= op.bytes
    requires staging[..filled] == Gather(op, file)[done..done + filled]
    modifies staging
    ensures 0 < take <= count - filled && (!refuses ==> ok)
    ensures ok ==> staging[..filled + take] == Gather(op, file)[done..done + filled + take]
  {
    hide Fits, SourceSpan, SourceAt, Gather;
    var packed := done + filled;
    Arith.DivMod(packed, op.rowBytes);
    take := Arith.Min(count - filled, op.rowBytes - packed % op.rowBytes);
    Contiguous(op, file, packed, take);
    SpanInFile(op, file);
    ghost var low, high := op.offset, op.offset + SourceSpan(op).value;
    ok := ReadAt(file, SourceAt(op, packed), staging, filled, take, refuses, low, high);
    if ok {
      SliceJoin(Gather(op, file), done, packed, packed + take);
      assert staging[..filled + take] == staging[..filled] + staging[filled..filled + take];
    }
  }

  lemma SpanInFile(op: Slice, file: Bytes)
    requires Fits(op, file)
    ensures SourceSpan(op).Some? && op.offset + SourceSpan(op).value <= |file|
  {
  }

  /** Row by row: the strided packing loop. */
  method FillStrided(op: Slice, file: Bytes, staging: array<Byte>, done: nat, count: nat, refuses: bool)
    returns (ok: bool)
    requires Fits(op, file) && op.rowBytes > 0 && done + count <= op.bytes && count <= staging.Length
    modifies staging
    ensures (!refuses ==> ok) && (ok ==> staging[..count] == Gather(op, file)[done..done + count])
  {
    hide Fits, SourceSpan, SourceAt, Gather;
    var filled: nat := 0;
    ok := true;
    while filled < count
      invariant ok && filled <= count
      invariant staging[..filled] == Gather(op, file)[done..done + filled]
    {
      var take;
      ok, take := FillRow(op, file, staging, done, filled, count, refuses);
      if !ok {
        return;
      }
      filled := filled + take;
    }
  }

  /** Packs the next `count` bytes of the slice into staging; never reads outside the source span. */
  method FillStaging(op: Slice, file: Bytes, staging: array<Byte>, done: nat, count: nat, refuses: bool)
    returns (ok: bool)
    requires Fits(op, file) && done + count <= op.bytes && 0 < count <= staging.Length
    modifies staging
    ensures (!refuses ==> ok) && (ok ==> staging[..count] == Gather(op, file)[done..done + count])
  {
    hide Fits, SourceSpan, SourceAt, Gather;
    if op.rowBytes == 0 {
      Contiguous(op, file, done, count);
      SpanInFile(op, file);
      ghost var low, high := op.offset, op.offset + SourceSpan(op).value;
      ok := ReadAt(file, SourceAt(op, done), staging, 0, count, refuses, low, high);
      assert staging[0..0 + count] == staging[..count];
    } else {
      ok := FillStrided(op, file, staging, done, count, refuses);
    }
  }

  /** Widens a chunk, refusing one that is not finite. */
  method Convert(staging: array<Byte>, count: nat) returns (converted: Option<Bytes>)
    requires count <= staging.Length && count % 2 == 0
    ensures converted.Some? <==> Finite(staging[..count])
    ensures converted.Some? ==> converted.value == Widen(staging[..count])
  {
    var out: Bytes := [];
    for j := 0 to count / 2
      invariant |out| == 4 * j
      invariant forall k: nat | k < |out| :: out[k] == WideByte(staging[..count], k)
      invariant forall e: nat | e < j :: FiniteAt(staging[..count], e)
    {
      var lo, hi := staging[2 * j], staging[2 * j + 1];
      if hi % 128 == 127 && lo >= 128 {
        assert !FiniteAt(staging[..count], j);
        return None;
      }
      out := out + [0, 0, lo, hi];
    }
    return Some(out);
  }

  // --------------------------------------------------------------- one tensor

  /**
   Device memory: blocks by handle. A device that `refuses` may fail any operation, and its files any read; one
   that `garbles` may store something else than was uploaded, without a word.
   */
  class Device {
    const refuses: bool
    const garbles: bool
    var blocks: map<nat, Bytes>
    var next: nat

    ghost predicate Valid()
      reads this
    {
      forall h | h in blocks :: h < next
    }

    constructor (refuses: bool, garbles: bool)
      ensures Valid() && blocks == map[] && this.refuses == refuses && this.garbles == garbles
    {
      this.refuses, this.garbles := refuses, garbles;
      blocks, next := map[], 0;
    }

    method Allocate(bytes: nat) returns (h: Option<nat>)
      requires Valid()
      modifies this
      ensures Valid()
      ensures !refuses ==> h.Some?
      ensures h == None ==> blocks == old(blocks)
      ensures h.Some? ==> h.value !in old(blocks) && h.value in blocks && |blocks[h.value]| == bytes
      ensures h.Some? ==> blocks == old(blocks)[h.value := blocks[h.value]]
    {
      var refused := *;
      if refuses && refused {
        return None;
      }
      var zero: Bytes := seq(bytes, _ => 0);
      assert |zero| == bytes;
      var junk: Bytes :| |junk| == bytes;
      h := Some(next);
      blocks, next := blocks[next := junk], next + 1;
    }

    method Release(h: nat)
      requires Valid() && h in blocks
      modifies this
      ensures Valid() && blocks == old(blocks) - {h}
    {
      blocks := blocks - {h};
    }

    method Upload(h: nat, at: nat, data: Bytes) returns (ok: bool)
      requires Valid() && h in blocks && at + |data| <= |blocks[h]|
      modifies this
      ensures Valid() && h in blocks && blocks == old(blocks)[h := blocks[h]] && |blocks[h]| == |old(blocks)[h]|
      ensures blocks[h][..at] == old(blocks)[h][..at]
      ensures (!refuses ==> ok) && (!garbles ==> blocks[h][at..at + |data|] == data)
    {
      var refused, garbled := *, *;
      ok := !(refuses && refused);
      var written := data;
      if garbles && garbled {
        written :| |written| == |data|;
      }
      blocks := blocks[h := blocks[h][..at] + written + blocks[h][at + |data|..]];
    }

    method Readback(h: nat, at: nat, count: nat) returns (data: Option<Bytes>)
      requires Valid() && h in blocks && at + count <= |blocks[h]|
      ensures !refuses ==> data.Some?
      ensures data.Some? ==> data.value == blocks[h][at..at + count]
    {
      var refused := *;
      if refuses && refused {
        return None;
      }
      return Some(blocks[h][at..at + count]);
    }
  }

  lemma WidenPart(g: Bytes, a: nat, b: nat)
    requires |g| % 2 == 0 && a % 2 == 0 && b % 2 == 0 && a <= b <= |g|
    ensures Widen(g[a..b]) == Widen(g)[2 * a..2 * b]
  {
    var part, whole := Widen(g[a..b]), Widen(g)[2 * a..2 * b];
    forall k: nat | k < 2 * (b - a) ensures part[k] == whole[k] {
      WideShift(g, a / 2, b, k);
      assert whole[k] == Widen(g)[2 * a + k];
    }
  }

  lemma WideShift(g: Bytes, m: nat, b: nat, k: nat)
    requires |g| % 2 == 0 && b % 2 == 0 && 2 * m <= b <= |g| && k < 2 * (b - 2 * m)
    ensures WideByte(g[2 * m..b], k) == WideByte(g, 4 * m + k)
  {
    assert (4 * m + k) % 4 == k % 4 && (4 * m + k) / 4 == m + k / 4;
  }

  lemma FinitePart(g: Bytes, a: nat, b: nat)
    requires a % 2 == 0 && b % 2 == 0 && a <= b <= |g|
    ensures Finite(g[..b]) <==> Finite(g[..a]) && Finite(g[a..b])
    ensures Finite(g) ==> Finite(g[..b])
  {
    forall e: nat | 2 * e + 2 <= a ensures FiniteAt(g[..a], e) == FiniteAt(g[..b], e) {
    }
    forall e: nat | 2 * e + 2 <= b - a ensures FiniteAt(g[a..b], e) == FiniteAt(g[..b], a / 2 + e) {
    }
    if Finite(g[..a]) && Finite(g[a..b]) {
      forall e: nat | 2 * e + 2 <= b ensures FiniteAt(g[..b], e) {
        if 2 * e + 2 > a {
          assert FiniteAt(g[a..b], e - a / 2);
        } else {
          assert FiniteAt(g[..a], e);
        }
      }
    }
    if Finite(g[..b]) {
      forall e: nat | 2 * e + 2 <= b - a ensures FiniteAt(g[a..b], e) {
        assert FiniteAt(g[..b], a / 2 + e);
      }
      forall e: nat | 2 * e + 2 <= a ensures FiniteAt(g[..a], e) {
        assert FiniteAt(g[..b], e);
      }
    }
    if Finite(g) {
      forall e: nat | 2 * e + 2 <= b ensures FiniteAt(g[..b], e) {
        assert FiniteAt(g, e);
      }
    }
  }

  ghost predicate Clean(op: Slice, p: Parameter, file: Bytes)
    requires Loadable(op, p, file)
  {
    Converts(op, p) ==> Finite(Gather(op, file))
  }

  /** Device bytes of the first `done` source bytes. */
  function Output(op: Slice, p: Parameter, done: nat): nat {
    if Converts(op, p) then 2 * done else done
  }

  /** Uploads a chunk and, when asked, reads it back and compares. */
  method Store(device: Device, h: nat, at: nat, data: Bytes, verify: bool) returns (ok: bool)
    requires device.Valid() && h in device.blocks && at + |data| <= |device.blocks[h]|
    modifies device
    ensures device.Valid() && h in device.blocks && device.blocks == old(device.blocks)[h := device.blocks[h]]
    ensures |device.blocks[h]| == |old(device.blocks)[h]| && device.blocks[h][..at] == old(device.blocks)[h][..at]
    ensures !device.refuses && (!device.garbles || !verify) ==> ok
    ensures ok && (verify || !device.garbles) ==> device.blocks[h][at..at + |data|] == data
  {
    ok := device.Upload(h, at, data);
    if ok && verify {
      var back := device.Readback(h, at, |data|);
      ok := back == Some(data);
    }
  }

  /** What a chunk becomes on the device. */
  method Stage(op: Slice, p: Parameter, file: Bytes, staging: array<Byte>, done: nat, count: nat, refuses: bool)
    returns (data: Option<Bytes>)
    requires Loadable(op, p, file) && 0 < count <= staging.Length && done + count <= op.bytes
    requires done % Width(op.source) == 0 && count % Width(op.source) == 0
    modifies staging
    ensures data.Some? ==> Converts(op, p) ==> Finite(Gather(op, file)[done..done + count])
    ensures !refuses && (Converts(op, p) ==> Finite(Gather(op, file)[done..done + count])) ==> data.Some?
    ensures data.Some? ==> data.value == Tensor(op, p, file)[Output(op, p, done)..Output(op, p, done + count)]
  {
    hide Gather, Fits, Finite, Widen;
    var ok := FillStaging(op, file, staging, done, count, refuses);
    if !ok {
      return None;
    }
    if Converts(op, p) {
      data := Convert(staging, count);
      WidenPart(Gather(op, file), done, done + count);
    } else {
      data := Some(staging[..count]);
    }
  }

  /** Reads, converts and stores the next chunk of a tensor. */
  method LoadChunk(device: Device, h: nat, op: Slice, p: Parameter, file: Bytes, staging: array<Byte>, verify: bool,
                   done: nat, count: nat)
    returns (ok: bool)
    requires Loadable(op, p, file) && 0 < count <= staging.Length && done + count <= op.bytes
    requires done % Width(op.source) == 0 && count % Width(op.source) == 0
    requires device.Valid() && h in device.blocks && |device.blocks[h]| == |Tensor(op, p, file)|
    requires Converts(op, p) ==> Finite(Gather(op, file)[..done])
    requires verify || !device.garbles ==>
      device.blocks[h][..Output(op, p, done)] == Tensor(op, p, file)[..Output(op, p, done)]
    modifies device, staging
    ensures device.Valid() && h in device.blocks && device.blocks == old(device.blocks)[h := device.blocks[h]]
    ensures |device.blocks[h]| == |old(device.blocks)[h]|
    ensures ok ==> Converts(op, p) ==> Finite(Gather(op, file)[..done + count])
    ensures !device.refuses && (!device.garbles || !verify) && Clean(op, p, file) ==> ok
    ensures ok && (verify || !device.garbles) ==>
      device.blocks[h][..Output(op, p, done + count)] == Tensor(op, p, file)[..Output(op, p, done + count)]
  {
    hide Gather, Fits, Finite, Widen, SourceSpan;
    ghost var tensor, g := Tensor(op, p, file), Gather(op, file);
    var data := Stage(op, p, file, staging, done, count, device.refuses);
    FiniteStep(op, p, g, done, count);
    if data == None {
      return false;
    }
    ghost var before := device.blocks[h];
    ok := Store(device, h, Output(op, p, done), data.value, verify);
    if ok {
      Joined(tensor, before, device.blocks[h], Output(op, p, done), |data.value|, data.value);
    }
  }

  /** Loads one tensor chunk by chunk; no chunk splits an element. */
  method LoadTensor(device: Device, h: nat, op: Slice, p: Parameter, file: Bytes, staging: array<Byte>, verify: bool)
    returns (ok: bool)
    requires Loadable(op, p, file) && 0 < staging.Length && staging.Length % 4 == 0
    requires device.Valid() && h in device.blocks && |device.blocks[h]| == |Tensor(op, p, file)|
    modifies device, staging
    ensures device.Valid() && h in device.blocks && device.blocks == old(device.blocks)[h := device.blocks[h]]
    ensures ok ==> Clean(op, p, file)
    ensures !device.refuses && (!device.garbles || !verify) ==> (ok <==> Clean(op, p, file))
    ensures ok && (verify || !device.garbles) ==> device.blocks[h] == Tensor(op, p, file)
  {
    hide Gather, Fits, Finite, Widen, SourceSpan;
    ghost var tensor, g := Tensor(op, p, file), Gather(op, file);
    var done: nat := 0;
    FiniteNothing(g);
    while done < op.bytes
      invariant done <= op.bytes && done % Width(op.source) == 0
      invariant device.Valid() && h in device.blocks && device.blocks == old(device.blocks)[h := device.blocks[h]]
      invariant |device.blocks[h]| == |tensor|
      invariant Converts(op, p) ==> Finite(g[..done])
      invariant verify || !device.garbles ==>
        device.blocks[h][..Output(op, p, done)] == tensor[..Output(op, p, done)]
    {
      var count := Arith.Min(staging.Length, op.bytes - done);
      Whole(op, done, count, staging.Length);
      ok := LoadChunk(device, h, op, p, file, staging, verify, done, count);
      if !ok {
        return;
      }
      done := done + count;
    }
    assert g[..op.bytes] == g && tensor[..|tensor|] == tensor && device.blocks[h][..|tensor|] == device.blocks[h];
    return true;
  }

  lemma FiniteNothing(g: Bytes)
    ensures Finite(g[..0])
  {
  }

  lemma FiniteStep(op: Slice, p: Parameter, g: Bytes, done: nat, count: nat)
    requires done + count <= |g| && done % Width(op.source) == 0 && count % Width(op.source) == 0
    requires Converts(op, p) ==> op.source == Bf16 && Finite(g[..done])
    ensures Converts(op, p) ==> (Finite(g[..done + count]) <==> Finite(g[done..done + count]))
    ensures Converts(op, p) && Finite(g) ==> Finite(g[..done + count])
  {
    if Converts(op, p) {
      FinitePart(g, done, done + count);
    }
  }

  /** Chunks end between elements. */
  lemma Whole(op: Slice, done: nat, count: nat, staging: nat)
    requires op.bytes % Width(op.source) == 0 && done % Width(op.source) == 0 && done < op.bytes
    requires staging > 0 && staging % 4 == 0 && count == Arith.Min(staging, op.bytes - done)
    ensures count > 0 && count % Width(op.source) == 0 && (done + count) % Width(op.source) == 0
  {
    var w := Width(op.source);
    FoursAreWhole(op.source, staging);
    hide Width;
    MultiplesAdd(op.bytes, 0 - done, w);
    MultiplesAdd(done, count, w);
  }

  lemma FoursAreWhole(dtype: DType, staging: nat)
    requires staging % 4 == 0
    ensures staging % Width(dtype) == 0 && Width(dtype) > 0
  {
    match dtype
    case I8 => OneDivides(staging);
    case Bf16 => FourIsEven(staging);
    case F32 =>
  }

  lemma OneDivides(n: nat)
    ensures n % 1 == 0
  {
  }

  lemma FourIsEven(n: nat)
    requires n % 4 == 0
    ensures n % 2 == 0
  {
    Arith.DivUnique(n, 2, n / 4 * 2, 0);
  }

  lemma MultiplesAdd(x: int, y: int, w: nat)
    requires w > 0 && x % w == 0 && (y % w == 0 || (-y) % w == 0)
    ensures (x + y) % w == 0
  {
    var q := if y % w == 0 then y / w else -((-y) / w);
    Arith.DivMod(x, w);
    Arith.DivMod(y, w);
    Arith.DivMod(-y, w);
    Arith.Distribute((-y) / w, -((-y) / w), w);
    Arith.Distribute(x / w, q, w);
    Arith.DivUnique(x + y, w, x / w + q, 0);
  }

  lemma Joined(tensor: Bytes, before: Bytes, after: Bytes, at: nat, n: nat, data: Bytes)
    requires at + n <= |tensor| == |before| == |after| && |data| == n && data == tensor[at..at + n]
    ensures after[..at] == before[..at] && before[..at] == tensor[..at] && after[at..at + n] == data ==>
      after[..at + n] == tensor[..at + n]
  {
    assert after[..at + n] == after[..at] + after[at..at + n];
    assert tensor[..at + n] == tensor[..at] + tensor[at..at + n];
  }
}
