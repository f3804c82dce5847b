/** The kernel contracts that let an operator overwrite, view or relay another node's storage. */
module KernelContracts {
  import opened Requests
  import opened TokenPlan
  import Arith
  import CompactRows

  /** A stretch of the value of a node that is not itself a slice. */
  datatype Region = Region(root: nat, start: nat, width: nat)

  /** Where a value lives once every slice is followed to what it is a slice of. */
  ghost function Walk(p: Plan, id: nat): Option<Region>
    requires Topological(p.nodes) && id < |p.nodes|
  {
    var n := p.nodes[id];
    if n.op != "slice" then Some(Region(id, 0, n.width))
    else if Integer(n, "start") == None || n.inputs == [] then None
    else match Walk(p, n.inputs[0])
      case None => None
      case Some(r) => Some(Region(r.root, r.start + Integer(n, "start").value, n.width))
  }

  method FindRegion(p: Plan, id: nat) returns (region: Option<Region>)
    requires Topological(p.nodes) && id < |p.nodes|
    ensures region == Walk(p, id)
  {
    var at: nat, start: nat := id, 0;
    while p.nodes[at].op == "slice"
      invariant at < |p.nodes|
      invariant Walk(p, id) == if Walk(p, at) == None then None
                               else Some(Region(Walk(p, at).value.root, Walk(p, at).value.start + start,
                                 p.nodes[id].width))
      decreases at
    {
      var n := p.nodes[at];
      var step := Integer(n, "start");
      if step == None || n.inputs == [] {
        return None;
      }
      start := start + step.value;
      at := n.inputs[0];
    }
    return Some(Region(at, start, p.nodes[id].width));
  }

  /** Operators whose result is never somebody else's storage. */
  predicate Fresh(op: string) {
    op in {"linear", "norm", "mla_value", "copy", "head_to_token"}
  }

  predicate Overlap(a: Region, b: Region) {
    b.root == a.root && b.start < a.start + a.width && a.start < b.start + b.width
  }

  ghost predicate ClearOf(p: Plan, a: Region, id: nat)
    requires Topological(p.nodes) && id < |p.nodes|
  {
    Walk(p, id).Some? && !Overlap(a, Walk(p, id).value)
  }

  /** Nobody but `owner` ever looks at the stretch `owner` is about to overwrite. */
  ghost predicate Exclusive(p: Plan, input: nat, owner: nat)
    requires Topological(p.nodes) && input < |p.nodes| && p.output < |p.nodes|
  {
    && Walk(p, input).Some?
    && var a := Walk(p, input).value;
    && a.root < |p.nodes| && Fresh(p.nodes[a.root].op)
    && ClearOf(p, a, p.output)
    && forall j, k | 0 <= j < |p.nodes| && j != owner && p.nodes[j].op != "slice" && 0 <= k < |p.nodes[j].inputs| ::
         ClearOf(p, a, p.nodes[j].inputs[k])
  }

  lemma WalkInPlan(p: Plan, id: nat)
    requires Topological(p.nodes) && id < |p.nodes| && Walk(p, id).Some?
    ensures Walk(p, id).value.root <= id && p.nodes[Walk(p, id).value.root].op != "slice"
    ensures Walk(p, id).value.width == p.nodes[id].width
    decreases id
  {
    var n := p.nodes[id];
    if n.op == "slice" {
      WalkInPlan(p, n.inputs[0]);
    }
  }

  method ReadsClear(p: Plan, a: Region, j: nat) returns (ok: bool)
    requires Topological(p.nodes) && j < |p.nodes|
    ensures ok <==> forall k | 0 <= k < |p.nodes[j].inputs| :: ClearOf(p, a, p.nodes[j].inputs[k])
  {
    for k := 0 to |p.nodes[j].inputs|
      invariant forall m | 0 <= m < k :: ClearOf(p, a, p.nodes[j].inputs[m])
    {
      var b := FindRegion(p, p.nodes[j].inputs[k]);
      if b == None || Overlap(a, b.value) {
        assert !ClearOf(p, a, p.nodes[j].inputs[k]);
        return false;
      }
    }
    return true;
  }

  method ExclusiveRegion(p: Plan, input: nat, owner: nat) returns (ok: bool)
    requires Topological(p.nodes) && input < |p.nodes| && p.output < |p.nodes|
    ensures ok <==> Exclusive(p, input, owner)
  {
    hide Walk;
    var a := FindRegion(p, input);
    if a == None {
      return false;
    }
    WalkInPlan(p, input);
    if !Fresh(p.nodes[a.value.root].op) {
      return false;
    }
    var b := FindRegion(p, p.output);
    if b == None || Overlap(a.value, b.value) {
      return false;
    }
    for j := 0 to |p.nodes|
      invariant forall i, k | 0 <= i < j && i != owner && p.nodes[i].op != "slice" && 0 <= k < |p.nodes[i].inputs| ::
        ClearOf(p, a.value, p.nodes[i].inputs[k])
    {
      if j != owner && p.nodes[j].op != "slice" {
        var clear := ReadsClear(p, a.value, j);
        if !clear {
          return false;
        }
      }
    }
    return true;
  }

  // ------------------------------------------------- the same, column by column

  /** Which node first computed column `e` of a value, and which of its columns that is. */
  ghost function Origin(p: Plan, id: nat, e: nat): (nat, nat)
    requires Topological(p.nodes) && id < |p.nodes| && SlicesWalk(p)
  {
    var n := p.nodes[id];
    if n.op != "slice" then (id, e) else
      assert SliceWalks(n);
      Origin(p, n.inputs[0], e + Integer(n, "start").value)
  }

  predicate SliceWalks(n: Node) {
    n.op == "slice" ==> n.inputs != [] && Integer(n, "start").Some? && n.width > 0
  }

  /** Slices name their start and are not empty, as their own contract demands. */
  ghost predicate SlicesWalk(p: Plan) {
    forall i | 0 <= i < |p.nodes| :: SliceWalks(p.nodes[i])
  }

  /** Some column of one value is some column of the other. */
  ghost predicate Share(p: Plan, x: nat, y: nat)
    requires Topological(p.nodes) && x < |p.nodes| && y < |p.nodes| && SlicesWalk(p)
  {
    exists e: nat, f: nat | e < p.nodes[x].width && f < p.nodes[y].width :: Origin(p, x, e) == Origin(p, y, f)
  }

  lemma {:induction false} OriginIsWalk(p: Plan, id: nat, e: nat)
    requires Topological(p.nodes) && id < |p.nodes| && SlicesWalk(p)
    ensures Walk(p, id).Some? && Walk(p, id).value.width == p.nodes[id].width
    ensures Origin(p, id, e) == (Walk(p, id).value.root, Walk(p, id).value.start + e)
    ensures Walk(p, id).value.width > 0 || Walk(p, id).value.start == 0
    decreases id
  {
    var n := p.nodes[id];
    assert SliceWalks(n);
    if n.op == "slice" {
      OriginIsWalk(p, n.inputs[0], e + Integer(n, "start").value);
    }
  }

  lemma ShareIff(p: Plan, x: nat, y: nat)
    requires Topological(p.nodes) && x < |p.nodes| && y < |p.nodes| && SlicesWalk(p) && p.nodes[x].width > 0
    ensures Walk(p, x).Some? && (ClearOf(p, Walk(p, x).value, y) <==> !Share(p, x, y))
  {
    hide Walk, Origin, SlicesWalk;
    OriginIsWalk(p, x, 0);
    OriginIsWalk(p, y, 0);
    var a, b := Walk(p, x).value, Walk(p, y).value;
    forall e: nat, f: nat ensures Origin(p, x, e) == (a.root, a.start + e) && Origin(p, y, f) == (b.root, b.start + f) {
      OriginIsWalk(p, x, e);
      OriginIsWalk(p, y, f);
    }
    if a.root == b.root && b.start < a.start + a.width && a.start < b.start + b.width {
      var c := if a.start < b.start then b.start else a.start;
      assert Origin(p, x, c - a.start) == Origin(p, y, c - b.start);
    }
  }

  /**
   Main: the region is found exclusive exactly when it belongs to a value that is never somebody else's storage and
   shares no column with the output or with what any other reader is given.
   */
  lemma ExclusiveIff(p: Plan, input: nat, owner: nat)
    requires Topological(p.nodes) && input < |p.nodes| && p.output < |p.nodes|
    requires SlicesWalk(p) && p.nodes[input].width > 0
    ensures Exclusive(p, input, owner) <==>
      && Origin(p, input, 0).0 < |p.nodes|
      && p.nodes[Origin(p, input, 0).0].op in {"linear", "norm", "mla_value", "copy", "head_to_token"}
      && !Share(p, input, p.output)
      && forall j, k |
           0 <= j < |p.nodes| && j != owner && p.nodes[j].op != "slice" && 0 <= k < |p.nodes[j].inputs| ::
           !Share(p, input, p.nodes[j].inputs[k])
  {
    hide Walk, Origin, SlicesWalk, Share, ClearOf;
    OriginIsWalk(p, input, 0);
    ShareIff(p, input, p.output);
    forall y: nat | y < |p.nodes| ensures ClearOf(p, Walk(p, input).value, y) <==> !Share(p, input, y) {
      ShareIff(p, input, y);
    }
  }

  // ---------------------------------------------------- contracts of one node

  ghost predicate Unary(p: Plan, i: nat)
    requires i < |p.nodes|
  {
    var n := p.nodes[i];
    n.kind == 0 && |n.inputs| == 1 && n.inputs[0] < |p.nodes| && p.nodes[n.inputs[0]].kind == 0
  }

  /** A slice lies inside its input. */
  ghost predicate SliceOk(p: Plan, i: nat)
    requires i < |p.nodes|
  {
    var n := p.nodes[i];
    && Unary(p, i) && n.attrs.Keys == {"start", "width"}
    && Integer(n, "start").Some? && Integer(n, "width") == Some(n.width) && 0 < n.width <= WIDTH_LIMIT
    && Integer(n, "start").value + n.width <= p.nodes[n.inputs[0]].width
  }

  ghost predicate ConvolutionOk(p: Plan, i: nat)
    requires i < |p.nodes|
  {
    var n := p.nodes[i];
    && p.physical && Unary(p, i) && n.width == p.nodes[n.inputs[0]].width
    && (if "placement" in n.attrs then
          n.attrs.Keys == {"weight", "taps", "placement"} && n.attrs["placement"] in {"tp_channels", "replicated"}
        else n.attrs.Keys == {"weight", "taps"})
    && n.attrs["taps"] == "3"
  }

  predicate HeadMajor(op: string) {
    op in {"gather_heads", "repeat_heads", "head_matmul"}
  }

  /** Head-major storage is read once, by the layout operator that turns it back. */
  ghost predicate RelayedOnce(p: Plan, i: nat)
    requires i < |p.nodes|
  {
    && p.output != i && Edges(p.nodes, |p.nodes|, i) == 1
    && forall j | 0 <= j < |p.nodes| && i in p.nodes[j].inputs :: p.nodes[j].op == "head_to_token"
  }

  ghost predicate HeadsOk(p: Plan, i: nat)
    requires i < |p.nodes|
  {
    var n := p.nodes[i];
    && p.physical && Unary(p, i) && n.dtype == "bf16" && p.nodes[n.inputs[0]].dtype == "bf16"
    && Integer(n, "heads").Some? && 0 < Integer(n, "heads").value <= 64
    && (if n.op == "head_matmul" then MatmulOk(p, i)
        else
          && n.attrs.Keys == {"heads"} && (n.op == "gather_heads" ==> Integer(n, "heads").value == CompactRows.RANKS)
          && n.width == Integer(n, "heads").value * p.nodes[n.inputs[0]].width <= WIDTH_LIMIT)
  }

  const MATMUL_KEYS := {
    "weight", "heads", "k", "n", "input_head_stride", "input_rank_stride", "weight_rows", "weight_cols",
    "weight_offset", "weight_head_stride", "weight_k_stride", "weight_n_stride"}

  /** A number among the attributes, once they are known to be there. */
  function Attribute(n: Node, key: string): nat {
    match Integer(n, key) case Some(v) => v case None => 0
  }

  /** The strided operands of a per-head product lie inside the input row and the weight. */
  ghost predicate MatmulOk(p: Plan, i: nat)
    requires i < |p.nodes| && Unary(p, i)
  {
    var n := p.nodes[i];
    && n.kernel == "aclnnBatchMatMul" && n.attrs.Keys == MATMUL_KEYS
    && (forall key | key in MATMUL_KEYS - {"weight"} :: Integer(n, key).Some?)
    && 0 < Attribute(n, "k") <= 65536 && 0 < Attribute(n, "n")
    && 0 < Attribute(n, "weight_rows") <= WIDTH_LIMIT && 0 < Attribute(n, "weight_cols") <= WIDTH_LIMIT
    && n.width == Attribute(n, "heads") * Attribute(n, "n") <= WIDTH_LIMIT
    && InputReach(n, CompactRows.RANKS - 1, Attribute(n, "heads") - 1, Attribute(n, "k")) <= p.nodes[n.inputs[0]].width
    && WeightReach(n, Attribute(n, "heads") - 1, Attribute(n, "k") - 1, Attribute(n, "n") - 1)
       < Attribute(n, "weight_rows") * Attribute(n, "weight_cols")
  }

  function InputReach(n: Node, rank: int, head: int, k: int): int {
    rank * Attribute(n, "input_rank_stride") + head * Attribute(n, "input_head_stride") + k
  }

  function WeightReach(n: Node, head: int, k: int, column: int): int {
    Attribute(n, "weight_offset") + head * Attribute(n, "weight_head_stride")
    + k * Attribute(n, "weight_k_stride") + column * Attribute(n, "weight_n_stride")
  }

  /** No rank, head, row or column of an accepted product reads outside its input row or its weight. */
  lemma MatmulReadsInside(p: Plan, i: nat, rank: nat, head: nat, k: nat, column: nat)
    requires i < |p.nodes| && Unary(p, i) && MatmulOk(p, i) && rank < CompactRows.RANKS
    requires head < Attribute(p.nodes[i], "heads") && k < Attribute(p.nodes[i], "k")
    requires column < Attribute(p.nodes[i], "n")
    ensures 0 <= InputReach(p.nodes[i], rank, head, k) < p.nodes[p.nodes[i].inputs[0]].width
    ensures 0 <= WeightReach(p.nodes[i], head, k, column)
      < Attribute(p.nodes[i], "weight_rows") * Attribute(p.nodes[i], "weight_cols")
  {
    hide Attribute;
    var n := p.nodes[i];
    Strided(rank, CompactRows.RANKS - 1, Attribute(n, "input_rank_stride"));
    Strided(head, Attribute(n, "heads") - 1, Attribute(n, "input_head_stride"));
    Strided(head, Attribute(n, "heads") - 1, Attribute(n, "weight_head_stride"));
    Strided(k, Attribute(n, "k") - 1, Attribute(n, "weight_k_stride"));
    Strided(column, Attribute(n, "n") - 1, Attribute(n, "weight_n_stride"));
  }

  /** The bounds are exact: they hold if and only if every strided read of the product is inside. */
  lemma MatmulBoundsExact(n: Node, width: nat, size: nat)
    requires Attribute(n, "heads") > 0 && Attribute(n, "k") > 0 && Attribute(n, "n") > 0
    ensures InputReach(n, CompactRows.RANKS - 1, Attribute(n, "heads") - 1, Attribute(n, "k")) <= width <==>
      forall rank: nat, head: nat, k: nat |
        rank < CompactRows.RANKS && head < Attribute(n, "heads") && k < Attribute(n, "k") ::
        InputReach(n, rank, head, k) < width
    ensures WeightReach(n, Attribute(n, "heads") - 1, Attribute(n, "k") - 1, Attribute(n, "n") - 1) < size <==>
      forall head: nat, k: nat, column: nat |
        head < Attribute(n, "heads") && k < Attribute(n, "k") && column < Attribute(n, "n") ::
        WeightReach(n, head, k, column) < size
  {
    hide Attribute;
    var heads, ks, columns := Attribute(n, "heads"), Attribute(n, "k"), Attribute(n, "n");
    forall rank: nat, head: nat, k: nat | rank < CompactRows.RANKS && head < heads && k < ks
      ensures InputReach(n, rank, head, k) < InputReach(n, CompactRows.RANKS - 1, heads - 1, ks)
    {
      Strided(rank, CompactRows.RANKS - 1, Attribute(n, "input_rank_stride"));
      Strided(head, heads - 1, Attribute(n, "input_head_stride"));
    }
    forall head: nat, k: nat, column: nat | head < heads && k < ks && column < columns
      ensures WeightReach(n, head, k, column) <= WeightReach(n, heads - 1, ks - 1, columns - 1)
    {
      Strided(head, heads - 1, Attribute(n, "weight_head_stride"));
      Strided(k, ks - 1, Attribute(n, "weight_k_stride"));
      Strided(column, columns - 1, Attribute(n, "weight_n_stride"));
    }
    assert InputReach(n, CompactRows.RANKS - 1, heads - 1, ks)
      == InputReach(n, CompactRows.RANKS - 1, heads - 1, ks - 1) + 1;
  }

  lemma Strided(x: nat, last: nat, stride: nat)
    requires x <= last
    ensures 0 <= x * stride <= last * stride
  {
    Arith.MulPos(x, stride);
    Arith.MulMono(x, last, stride);
  }

  ghost predicate LayoutOk(p: Plan, i: nat)
    requires i < |p.nodes|
  {
    var n := p.nodes[i];
    && p.physical && Unary(p, i) && n.dtype == "bf16" && n.kernel == "aclnnCast" && n.attrs.Keys == {"heads", "width"}
    && Integer(n, "heads").Some? && Integer(n, "width").Some?
    && var (heads, width, source) := (Integer(n, "heads").value, Integer(n, "width").value, p.nodes[n.inputs[0]]);
    && 0 < heads <= 64 && 0 < width && heads * width <= WIDTH_LIMIT
    && n.width == heads * width == source.width
    && Integer(source, "heads") == Some(heads)
    && HeadMajor(source.op)
    && (source.op == "head_matmul" ==> Integer(source, "n") == Some(width))
    && (source.op != "head_matmul" ==>
          |source.inputs| > 0 && source.inputs[0] < |p.nodes| && p.nodes[source.inputs[0]].width == width)
  }

  ghost predicate NodeContract(p: Plan, i: nat)
    requires Topological(p.nodes) && p.output < |p.nodes| && i < |p.nodes|
  {
    var n := p.nodes[i];
    if n.op == "slice" then SliceOk(p, i)
    else if n.op == "mome_inplace" then ConvolutionOk(p, i) && Exclusive(p, n.inputs[0], i)
    else if HeadMajor(n.op) then HeadsOk(p, i) && RelayedOnce(p, i)
    else if n.op == "head_to_token" then LayoutOk(p, i)
    else true
  }

  ghost predicate Contracts(p: Plan)
    requires Topological(p.nodes) && p.output < |p.nodes|
  {
    forall i | 0 <= i < |p.nodes| :: NodeContract(p, i)
  }

  // ------------------------------------------------------------- the checks

  /** One tensor operand, and a tensor result. */
  method CheckUnary(p: Plan, i: nat) returns (ok: bool)
    requires i < |p.nodes|
    ensures ok <==> Unary(p, i)
  {
    var n := p.nodes[i];
    if |n.inputs| != 1 || n.kind != 0 || n.inputs[0] >= |p.nodes| {
      return false;
    }
    return p.nodes[n.inputs[0]].kind == 0;
  }

  method CheckSlice(p: Plan, i: nat) returns (ok: bool)
    requires i < |p.nodes|
    ensures ok <==> SliceOk(p, i)
  {
    var n := p.nodes[i];
    ok := CheckUnary(p, i);
    if !ok {
      return;
    }
    var start, width := Integer(n, "start"), Integer(n, "width");
    if start == None || width == None || width.value == 0 || width.value > 200_000 {
      return false;
    }
    if start.value + width.value > p.nodes[n.inputs[0]].width {
      return false;
    }
    return n.attrs.Keys == {"start", "width"} && n.width == width.value;
  }

  method CheckConvolution(p: Plan, i: nat) returns (ok: bool)
    requires i < |p.nodes|
    ensures ok <==> ConvolutionOk(p, i)
  {
    var n := p.nodes[i];
    ok := CheckUnary(p, i);
    if !ok || !p.physical || n.width != p.nodes[n.inputs[0]].width {
      return false;
    }
    var attrs := {"weight", "taps"};
    if "placement" in n.attrs {
      attrs := attrs + {"placement"};
      if n.attrs["placement"] != "tp_channels" && n.attrs["placement"] != "replicated" {
        return false;
      }
    }
    return n.attrs.Keys == attrs && n.attrs["taps"] == "3";
  }

  /** gather_heads and repeat_heads. */
  method CheckHeads(p: Plan, i: nat) returns (ok: bool)
    requires i < |p.nodes| && p.nodes[i].op != "head_matmul"
    ensures ok <==> HeadsOk(p, i)
  {
    var n := p.nodes[i];
    ok := CheckUnary(p, i);
    if !ok || !p.physical {
      return false;
    }
    var heads, input := Integer(n, "heads"), p.nodes[n.inputs[0]];
    if heads == None || heads.value == 0 || heads.value > 64 || heads.value * input.width > 200_000 {
      return false;
    }
    if n.dtype != "bf16" || input.dtype != "bf16" || (n.op == "gather_heads" && heads.value != 8) {
      return false;
    }
    return n.attrs.Keys == {"heads"} && n.width == heads.value * input.width;
  }

  method CheckMatmul(p: Plan, i: nat) returns (ok: bool)
    requires i < |p.nodes| && p.nodes[i].op == "head_matmul"
    ensures ok <==> HeadsOk(p, i)
  {
    var n := p.nodes[i];
    ok := CheckUnary(p, i);
    if !ok || !p.physical || n.attrs.Keys != MATMUL_KEYS || exists key | key in MATMUL_KEYS - {"weight"} ::
      Integer(n, key) == None
    {
      return false;
    }
    var heads, k, columns := Attribute(n, "heads"), Attribute(n, "k"), Attribute(n, "n");
    var rows, cols := Attribute(n, "weight_rows"), Attribute(n, "weight_cols");
    if heads == 0 || heads > 64 || k == 0 || k > 65536 || columns == 0 || heads * columns > 200_000 {
      return false;
    }
    if rows == 0 || rows > 200_000 || cols == 0 || cols > 200_000 {
      return false;
    }
    if n.dtype != "bf16" || p.nodes[n.inputs[0]].dtype != "bf16" || n.kernel != "aclnnBatchMatMul" {
      return false;
    }
    var reach := 7 * Attribute(n, "input_rank_stride") + (heads - 1) * Attribute(n, "input_head_stride") + k;
    var last := Attribute(n, "weight_offset") + (heads - 1) * Attribute(n, "weight_head_stride")
      + (k - 1) * Attribute(n, "weight_k_stride") + (columns - 1) * Attribute(n, "weight_n_stride");
    return n.width == heads * columns && reach <= p.nodes[n.inputs[0]].width && last < rows * cols;
  }

  method CheckLayout(p: Plan, i: nat) returns (ok: bool)
    requires i < |p.nodes|
    ensures ok <==> LayoutOk(p, i)
  {
    var n := p.nodes[i];
    ok := CheckUnary(p, i);
    if !ok || !p.physical || n.dtype != "bf16" || n.kernel != "aclnnCast" || n.attrs.Keys != {"heads", "width"} {
      return false;
    }
    var heads, width, source := Integer(n, "heads"), Integer(n, "width"), p.nodes[n.inputs[0]];
    if heads == None || width == None || heads.value == 0 || heads.value > 64 || width.value == 0 {
      return false;
    }
    if heads.value * width.value > 200_000 || n.width != heads.value * width.value || source.width != n.width {
      return false;
    }
    if Integer(source, "heads") != heads {
      return false;
    }
    if source.op == "head_matmul" {
      return Integer(source, "n") == width;
    }
    if source.op != "gather_heads" && source.op != "repeat_heads" {
      return false;
    }
    return source.inputs != [] && source.inputs[0] < |p.nodes| && p.nodes[source.inputs[0]].width == width.value;
  }

  method CountReads(inputs: seq<nat>, i: nat) returns (times: nat)
    ensures times == Occurrences(inputs, i)
    ensures times == 0 <==> i !in inputs
  {
    times := 0;
    for k := 0 to |inputs|
      invariant times == Occurrences(inputs[..k], i) && (times == 0 <==> i !in inputs[..k])
    {
      assert inputs[..k + 1][..k] == inputs[..k];
      if inputs[k] == i {
        times := times + 1;
      }
    }
    assert inputs[..|inputs|] == inputs;
  }

  method CheckRelay(p: Plan, i: nat) returns (ok: bool)
    requires i < |p.nodes|
    ensures ok <==> RelayedOnce(p, i)
  {
    var consumers := 0;
    for j := 0 to |p.nodes|
      invariant consumers == Edges(p.nodes, j, i)
      invariant forall m | 0 <= m < j && i in p.nodes[m].inputs :: p.nodes[m].op == "head_to_token"
    {
      var times := CountReads(p.nodes[j].inputs, i);
      if times > 0 && p.nodes[j].op != "head_to_token" {
        return false;
      }
      consumers := consumers + times;
    }
    return consumers == 1 && p.output != i;
  }

  /** Node by node, as the plan is validated before any memory is allocated. */
  method Validate(p: Plan) returns (ok: bool)
    requires Topological(p.nodes) && p.output < |p.nodes|
    ensures ok <==> Contracts(p)
  {
    hide SliceOk, ConvolutionOk, HeadsOk, LayoutOk, RelayedOnce, Exclusive;
    for i := 0 to |p.nodes|
      invariant forall j | 0 <= j < i :: NodeContract(p, j)
    {
      var n := p.nodes[i];
      ok := true;
      if n.op == "slice" {
        ok := CheckSlice(p, i);
      } else if n.op == "mome_inplace" {
        ok := CheckConvolution(p, i);
        if ok {
          ConvolutionReads(p, i);
          ok := ExclusiveRegion(p, n.inputs[0], i);
        }
      } else if n.op == "gather_heads" || n.op == "repeat_heads" || n.op == "head_matmul" {
        if n.op == "head_matmul" {
          ok := CheckMatmul(p, i);
        } else {
          ok := CheckHeads(p, i);
        }
        if ok {
          ok := CheckRelay(p, i);
        }
      } else if n.op == "head_to_token" {
        ok := CheckLayout(p, i);
      }
      assert ok <==> NodeContract(p, i);
      if !ok {
        return;
      }
    }
    return true;
  }

  lemma ConvolutionReads(p: Plan, i: nat)
    requires i < |p.nodes| && ConvolutionOk(p, i)
    ensures |p.nodes[i].inputs| == 1 && p.nodes[i].inputs[0] < |p.nodes|
  {
  }

  /** In a plan that keeps its contracts every slice can be followed, so `ExclusiveIff` is about all of them. */
  lemma ContractsWalk(p: Plan)
    requires Topological(p.nodes) && p.output < |p.nodes| && Contracts(p)
    ensures SlicesWalk(p)
  {
    hide Exclusive, RelayedOnce, LayoutOk, HeadsOk, ConvolutionOk;
    forall i | 0 <= i < |p.nodes| ensures SliceWalks(p.nodes[i]) {
      assert NodeContract(p, i);
    }
  }

  /** What row compaction needs of gather_heads is part of its contract. */
  lemma GathersFollow(p: Plan)
    requires Topological(p.nodes) && p.output < |p.nodes| && Contracts(p)
    ensures CompactRows.GathersOk(p)
  {
    hide Exclusive, RelayedOnce, LayoutOk, SliceOk, ConvolutionOk;
    forall i | 0 <= i < |p.nodes| && p.nodes[i].op == "gather_heads"
      ensures Integer(p.nodes[i], "heads") == Some(CompactRows.RANKS)
    {
      assert NodeContract(p, i);
    }
  }
}
