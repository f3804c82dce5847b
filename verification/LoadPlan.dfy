/** Initialization plans: which file bytes make up each parameter, and when a plan is accepted. */
module LoadPlan {
  import opened Requests
  import opened Counting
  import Arith

  const UINT64_MAX := 0xffff_ffff_ffff_ffff
  const INT64_MAX := 0x7fff_ffff_ffff_ffff

  type Byte = x: nat | x < 256

  datatype DType = I8 | Bf16 | F32

  datatype Parameter = Parameter(id: nat, name: string, dtype: DType, shape: seq<int>)

  datatype Slice = Slice(
    destination: nat, shard: string, offset: nat, bytes: nat, source: DType, rowBytes: nat, strideBytes: nat)

  datatype Plan = Plan(digest: string, parameters: seq<Parameter>, instructions: seq<Slice>)

  function Width(d: DType): (w: nat)
    ensures w > 0
  {
    match d case I8 => 1 case Bf16 => 2 case F32 => 4
  }

  function Extent(shape: seq<int>): int {
    if shape == [] then 1 else Extent(shape[..|shape| - 1]) * shape[|shape| - 1]
  }

  ghost predicate ShapeOk(p: Parameter) {
    && 0 < |p.shape| <= 8 && (forall d | 0 <= d < |p.shape| :: p.shape[d] > 0)
    && Width(p.dtype) * Extent(p.shape) <= UINT64_MAX
  }

  lemma ExtentGrows(shape: seq<int>, n: nat)
    requires n <= |shape| && forall d | 0 <= d < |shape| :: shape[d] > 0
    ensures 0 < Extent(shape[..n]) <= Extent(shape)
    decreases |shape|
  {
    if n == |shape| {
      assert shape[..n] == shape;
      if n > 0 {
        ExtentGrows(shape[..n - 1], n - 1);
        Arith.MulMono(1, shape[n - 1], Extent(shape[..n - 1]));
      }
    } else {
      var init := shape[..|shape| - 1];
      ExtentGrows(init, n);
      assert init[..n] == shape[..n];
      Arith.MulMono(1, shape[|shape| - 1], Extent(init));
    }
  }

  /** Total bytes, refusing every product that leaves 64 bits. */
  method ParameterBytes(p: Parameter) returns (bytes: Option<nat>)
    ensures bytes.Some? <==> ShapeOk(p)
    ensures bytes.Some? ==> bytes.value == Width(p.dtype) * Extent(p.shape)
  {
    if p.shape == [] || |p.shape| > 8 {
      return None;
    }
    var total: nat := Width(p.dtype);
    for d := 0 to |p.shape|
      invariant forall e | 0 <= e < d :: p.shape[e] > 0
      invariant total == Width(p.dtype) * Extent(p.shape[..d])
      invariant 0 < total <= UINT64_MAX
    {
      var dimension := p.shape[d];
      if dimension <= 0 {
        return None;
      }
      Quotient(dimension, total);
      assert p.shape[..d + 1][..d] == p.shape[..d];
      Arith.Assoc(Width(p.dtype), Extent(p.shape[..d]), dimension);
      if dimension > UINT64_MAX / total {
        TooLarge(p, d);
        return None;
      }
      Arith.MulMono(1, dimension, total);
      total := total * dimension;
    }
    assert p.shape[..|p.shape|] == p.shape;
    return Some(total);
  }

  lemma Quotient(x: nat, d: nat)
    requires d > 0
    ensures x > UINT64_MAX / d <==> d * x > UINT64_MAX
  {
    var q := UINT64_MAX / d;
    Arith.DivMod(UINT64_MAX, d);
    if x > q {
      Arith.MulMono(q + 1, x, d);
      Arith.Distribute(q, 1, d);
    } else {
      Arith.MulMono(x, q, d);
    }
  }

  lemma TooLarge(p: Parameter, d: nat)
    requires d < |p.shape| && Width(p.dtype) * Extent(p.shape[..d + 1]) > UINT64_MAX
    ensures !ShapeOk(p)
  {
    if forall e | 0 <= e < |p.shape| :: p.shape[e] > 0 {
      ExtentGrows(p.shape, d + 1);
      Arith.MulMono(Extent(p.shape[..d + 1]), Extent(p.shape), Width(p.dtype));
    }
  }

  /** The file bytes from the slice's offset to the last one it uses; None for malformed rows. */
  function SourceSpan(op: Slice): Option<nat> {
    if op.rowBytes == 0 then
      if op.strideBytes != 0 then None else Some(op.bytes)
    else if op.bytes == 0 || op.bytes % op.rowBytes != 0 || op.rowBytes % Width(op.source) != 0 ||
            op.strideBytes < op.rowBytes || op.strideBytes % Width(op.source) != 0 then None
    else
      RowCount(op.bytes, op.rowBytes);
      var rows: nat := op.bytes / op.rowBytes - 1;
      Arith.MulPos(rows, op.strideBytes);
      if rows * op.strideBytes + op.rowBytes > UINT64_MAX then None else Some(rows * op.strideBytes + op.rowBytes)
  }

  lemma RowCount(bytes: nat, row: nat)
    requires row > 0 && bytes > 0 && bytes % row == 0
    ensures bytes / row >= 1
  {
    Arith.DivMod(bytes, row);
    if bytes / row <= 0 {
      Arith.MulMono(bytes / row, 0, row);
    }
  }

  ghost predicate HexDigit(c: char) {
    '0' <= c <= '9' || 'a' <= c <= 'f' || 'A' <= c <= 'F'
  }

  ghost predicate StringOk(s: string) {
    s != [] && |s| <= 4096 && '\0' !in s
  }

  ghost predicate ShardOk(s: string) {
    StringOk(s) && s != "." && s != ".." && '/' !in s && '\\' !in s && ':' !in s
  }

  ghost predicate SliceOk(plan: Plan, op: Slice)
    requires op.destination < |plan.parameters|
  {
    var p := plan.parameters[op.destination];
    && ShardOk(op.shard)
    && (op.source == p.dtype || (op.source == Bf16 && p.dtype == F32))
    && Extent(p.shape) * Width(op.source) == op.bytes <= UINT64_MAX
    && SourceSpan(op).Some? && op.offset + SourceSpan(op).value <= INT64_MAX
  }

  ghost function TotalBytes(ps: seq<Parameter>): int {
    if ps == [] then 0 else TotalBytes(ps[..|ps| - 1]) + Width(ps[|ps| - 1].dtype) * Extent(ps[|ps| - 1].shape)
  }

  function Names(ps: seq<Parameter>): seq<string> {
    seq(|ps|, i requires 0 <= i < |ps| => ps[i].name)
  }

  ghost predicate ParametersOk(ps: seq<Parameter>) {
    && (forall i | 0 <= i < |ps| :: ps[i].id == i && StringOk(ps[i].name) && ShapeOk(ps[i]))
    && NoRepeat(Names(ps))
    && TotalBytes(ps) <= UINT64_MAX
  }

  ghost predicate InstructionsOk(plan: Plan, n: nat)
    requires n <= |plan.instructions|
  {
    && (forall i | 0 <= i < n ::
          plan.instructions[i].destination < |plan.parameters| && SliceOk(plan, plan.instructions[i]))
    && (forall i, j | 0 <= i < j < n :: plan.instructions[i].destination != plan.instructions[j].destination)
  }

  ghost predicate ValidPlan(plan: Plan) {
    && 0 < |plan.parameters| <= 100000 && |plan.instructions| == |plan.parameters|
    && |plan.digest| == 64 && (forall c | c in plan.digest :: HexDigit(c))
    && ParametersOk(plan.parameters) && InstructionsOk(plan, |plan.instructions|)
  }

  /** Which instruction fills parameter `id`. */
  ghost predicate Produces(plan: Plan, i: nat, id: nat) {
    i < |plan.instructions| && plan.instructions[i].destination == id
  }

  /** As many producers as parameters and no parameter produced twice: every parameter is produced, once. */
  lemma EveryParameterProduced(plan: Plan, id: nat)
    requires ValidPlan(plan) && id < |plan.parameters|
    ensures exists i :: Produces(plan, i, id) && forall j | Produces(plan, j, id) :: j == i
  {
    hide SliceOk, ParametersOk;
    var row := Destinations(plan);
    PigeonHole(row);
    assert id in row;
    var i :| 0 <= i < |row| && row[i] == id;
    assert Produces(plan, i, id);
  }

  ghost function Destinations(plan: Plan): seq<int> {
    seq(|plan.instructions|, i requires 0 <= i < |plan.instructions| => plan.instructions[i].destination)
  }

  lemma {:induction false} TotalGrows(ps: seq<Parameter>, n: nat)
    requires n <= |ps| && forall i | 0 <= i < |ps| :: ShapeOk(ps[i])
    ensures 0 <= TotalBytes(ps[..n]) <= TotalBytes(ps)
    decreases |ps|
  {
    if n < |ps| {
      TotalGrows(ps[..|ps| - 1], n);
      assert ps[..|ps| - 1][..n] == ps[..n];
      ExtentGrows(ps[|ps| - 1].shape, 0);
      Arith.MulPos(Width(ps[|ps| - 1].dtype), Extent(ps[|ps| - 1].shape));
    } else if n > 0 {
      assert ps[..n] == ps;
      TotalGrows(ps[..n - 1], n - 1);
      assert ps[..n - 1][..n - 1] == ps[..n - 1];
      ExtentGrows(ps[n - 1].shape, 0);
      Arith.MulPos(Width(ps[n - 1].dtype), Extent(ps[n - 1].shape));
    }
  }

  method CheckString(s: string) returns (ok: bool)
    ensures ok <==> StringOk(s)
  {
    if s == [] || |s| > 4096 {
      return false;
    }
    return '\0' !in s;
  }

  /** A file name that cannot lead out of its directory. */
  method CheckShard(s: string) returns (ok: bool)
    ensures ok <==> ShardOk(s)
  {
    ok := CheckString(s);
    if !ok || s == "." || s == ".." {
      return false;
    }
    for i := 0 to |s|
      invariant '/' !in s[..i] && '\\' !in s[..i] && ':' !in s[..i]
    {
      if s[i] in "/\\:" {
        return false;
      }
    }
    assert s[..|s|] == s;
  }

  method CheckDigest(s: string) returns (ok: bool)
    ensures ok <==> |s| == 64 && forall c | c in s :: HexDigit(c)
  {
    if |s| != 64 {
      return false;
    }
    for i := 0 to |s|
      invariant forall c | c in s[..i] :: HexDigit(c)
    {
      if s[i] !in "0123456789abcdefABCDEF" {
        assert !HexDigit(s[i]) by { NoDigit(s[i]); }
        return false;
      }
      assert s[..i + 1] == s[..i] + [s[i]];
    }
    assert s[..|s|] == s;
    return true;
  }

  lemma NoDigit(c: char)
    ensures HexDigit(c) <==> c in "0123456789abcdefABCDEF"
  {
  }

  method CheckParameters(ps: seq<Parameter>) returns (ok: bool)
    ensures ok <==> ParametersOk(ps)
  {
    hide ShapeOk, StringOk, Listed, NoRepeat;
    var names := {};
    var total: nat := 0;
    ghost var row := Names(ps);
    ListedStart(row);
    for i := 0 to |ps|
      invariant forall j | 0 <= j < i :: ps[j].id == j && StringOk(ps[j].name) && ShapeOk(ps[j])
      invariant Listed(row, i, names)
      invariant total == TotalBytes(ps[..i]) <= UINT64_MAX
    {
      var p := ps[i];
      ListedStep(row, i, names);
      ok := CheckString(p.name);
      if p.id != i || !ok || p.name in names {
        return false;
      }
      names := names + {p.name};
      var bytes := ParameterBytes(p);
      if bytes == None {
        return false;
      }
      assert ps[..i + 1][..i] == ps[..i];
      if total > UINT64_MAX - bytes.value {
        TotalTooLarge(ps, i + 1);
        return false;
      }
      total := total + bytes.value;
    }
    assert ps[..|ps|] == ps;
    ListedAll(row, names);
    return true;
  }

  lemma TotalTooLarge(ps: seq<Parameter>, n: nat)
    requires n <= |ps| && TotalBytes(ps[..n]) > UINT64_MAX
    ensures !ParametersOk(ps)
  {
    if forall j | 0 <= j < |ps| :: ShapeOk(ps[j]) {
      TotalGrows(ps, n);
    }
  }

  method CheckSlice(plan: Plan, op: Slice) returns (ok: bool)
    requires op.destination < |plan.parameters| && ShapeOk(plan.parameters[op.destination])
    ensures ok <==> SliceOk(plan, op)
  {
    var p := plan.parameters[op.destination];
    ok := CheckShard(op.shard);
    if !ok {
      return;
    }
    if op.source != p.dtype && !(op.source == Bf16 && p.dtype == F32) {
      return false;
    }
    var bytes := ParameterBytes(p);
    ExtentGrows(p.shape, 0);
    Arith.MultipleMod(Extent(p.shape), Width(p.dtype));
    var elements := bytes.value / Width(p.dtype);
    Quotient(elements, Width(op.source));
    if elements > UINT64_MAX / Width(op.source) || elements * Width(op.source) != op.bytes {
      return false;
    }
    var span := SourceSpan(op);
    return span.Some? && op.offset + span.value <= UINT64_MAX && op.offset + span.value <= 0x7fff_ffff_ffff_ffff;
  }

  /** The checks behind the parser: accepts exactly the valid plans. */
  method Validate(plan: Plan) returns (ok: bool)
    ensures ok <==> ValidPlan(plan)
  {
    hide SliceOk, ShapeOk;
    if plan.parameters == [] || |plan.parameters| > 100000 || |plan.instructions| != |plan.parameters| {
      return false;
    }
    ok := CheckDigest(plan.digest);
    if !ok {
      return;
    }
    ok := CheckParameters(plan.parameters);
    if !ok {
      return;
    }
    var produced := seq(|plan.parameters|, i => false);
    for i := 0 to |plan.instructions|
      invariant |produced| == |plan.parameters| && InstructionsOk(plan, i)
      invariant forall d | 0 <= d < |produced| ::
        produced[d] <==> exists j | 0 <= j < i :: plan.instructions[j].destination == d
    {
      var op := plan.instructions[i];
      if op.destination >= |plan.parameters| || produced[op.destination] {
        return false;
      }
      produced := produced[op.destination := true];
      ok := CheckSlice(plan, op);
      if !ok {
        return;
      }
    }
    return true;
  }
}
