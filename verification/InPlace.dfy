/**
 * Running a plan in storage where a view is only a name for somebody else's storage and the convolution
 * overwrites its input: the output is the one computed with a storage of its own for every value.
 */
module InPlace {
  import opened Requests
  import opened TokenPlan
  import opened KernelContracts

  /** The rows of a value: one for each token, except where a kernel says otherwise. */
  type Rows = seq<seq<real>>

  type Kernels = (nat, seq<Rows>) -> Rows

  /**
   * How a backend runs the plan. With a `single` token slices and head_to_token are views, with several they
   * are copies. `views` are the nodes run as a view of their first input; the value of an opaque node in
   * `carriers` refers to the storage of its first operand, as an mHC value does to its residual.
   */
  datatype Mode = Mode(single: bool, views: set<nat>, carriers: set<nat>)

  ghost predicate Validated(p: Plan) {
    Topological(p.nodes) && p.output < |p.nodes| && p.nodes[p.output].kind == 0 && Contracts(p)
  }

  ghost predicate ModeOk(p: Plan, m: Mode) {
    && (forall v | v in m.views :: v < |p.nodes| && ViewOk(p, m, v))
    && (forall v | v in m.carriers :: v < |p.nodes| && CarrierOk(p, m, v))
  }

  ghost predicate ViewOk(p: Plan, m: Mode, v: nat)
    requires v < |p.nodes|
  {
    var n := p.nodes[v];
    && n.kind == 0 && |n.inputs| > 0 && n.inputs[0] < |p.nodes|
    && p.nodes[n.inputs[0]].kind == 0 && n.width == p.nodes[n.inputs[0]].width
    && n.op != "slice" && n.op != "mome_inplace" && !HeadMajor(n.op)
    && (Fresh(n.op) ==> n.op == "head_to_token" && m.single)
  }

  ghost predicate CarrierOk(p: Plan, m: Mode, v: nat)
    requires v < |p.nodes|
  {
    var n := p.nodes[v];
    && n.kind != 0 && |n.inputs| > 0 && n.inputs[0] < |p.nodes|
    && (p.nodes[n.inputs[0]].kind == 0 || n.inputs[0] in m.carriers)
  }

  /** Nodes that get no storage of their own. */
  predicate Aliases(p: Plan, m: Mode, i: nat)
    requires i < |p.nodes|
  {
    (p.nodes[i].op == "slice" && m.single) || p.nodes[i].op == "mome_inplace" || i in m.views
  }

  /** Nodes whose value is, unchanged, a stretch of their first input. */
  predicate Derived(p: Plan, m: Mode, i: nat)
    requires i < |p.nodes|
  {
    p.nodes[i].op == "slice" || (i in m.views && p.nodes[i].op != "mome_inplace")
  }

  predicate Wide(v: Rows, width: nat) {
    forall r | 0 <= r < |v| :: |v[r]| == width
  }

  /** Operand widths; the value of an opaque operand can be anything. */
  predicate Fits(p: Plan, i: nat, ins: seq<Rows>)
    requires i < |p.nodes|
  {
    var n := p.nodes[i];
    && |ins| == |n.inputs|
    && forall j | 0 <= j < |ins| :: n.inputs[j] < |p.nodes| && (
         var input := p.nodes[n.inputs[j]]; input.kind == 0 ==> Wide(ins[j], input.width))
  }

  /** Tensor results have the declared width, views are their first operand, a convolution keeps the number of rows. */
  ghost predicate KernelsOk(p: Plan, m: Mode, ops: Kernels) {
    forall i: nat, ins | i < |p.nodes| && Fits(p, i, ins) ::
      && (p.nodes[i].kind == 0 ==> Wide(ops(i, ins), p.nodes[i].width))
      && (i in m.views && ins != [] ==> ops(i, ins) == ins[0])
      && (p.nodes[i].op == "mome_inplace" && ins != [] ==> |ops(i, ins)| == |ins[0]|)
  }

  ghost predicate Setting(p: Plan, m: Mode, ops: Kernels) {
    Validated(p) && ModeOk(p, m) && KernelsOk(p, m, ops)
  }

  function Offset(n: Node): nat {
    if n.op != "slice" then 0 else match Integer(n, "start") case Some(s) => s case None => 0
  }

  lemma ViewFacts(p: Plan, m: Mode, v: nat)
    requires ModeOk(p, m)
    ensures v in m.views ==> v < |p.nodes| && ViewOk(p, m, v)
  {
  }

  lemma DerivedFacts(p: Plan, m: Mode, i: nat)
    requires Validated(p) && ModeOk(p, m) && i < |p.nodes| && (Aliases(p, m, i) || Derived(p, m, i))
    ensures p.nodes[i].kind == 0 && |p.nodes[i].inputs| > 0 && p.nodes[i].inputs[0] < i
    ensures p.nodes[p.nodes[i].inputs[0]].kind == 0
    ensures Offset(p.nodes[i]) + p.nodes[i].width <= p.nodes[p.nodes[i].inputs[0]].width
    ensures p.nodes[i].op == "slice" ==>
      |p.nodes[i].inputs| == 1 && Integer(p.nodes[i], "start").Some? && p.nodes[i].width > 0
    ensures p.nodes[i].op == "mome_inplace" ==> |p.nodes[i].inputs| == 1
    ensures p.nodes[i].op != "slice" ==> p.nodes[i].width == p.nodes[p.nodes[i].inputs[0]].width
  {
    hide Exclusive, RelayedOnce, LayoutOk, HeadsOk;
    assert NodeContract(p, i);
    if i in m.views {
      assert ViewOk(p, m, i);
    }
  }

  // -------------------------------------------------------- the two semantics

  predicate Reaches(v: Rows, bound: nat) {
    forall r | 0 <= r < |v| :: bound <= |v[r]|
  }

  function Columns(v: Rows, start: nat, count: nat): (c: Rows)
    requires Reaches(v, start + count)
    ensures |c| == |v| && Wide(c, count)
  {
    seq(|v|, r requires 0 <= r < |v| => v[r][start..start + count])
  }

  /** The carrier at the far end of the references, the one that was handed the tensor. */
  function Holder(p: Plan, m: Mode, y: nat): (h: nat)
    requires Validated(p) && ModeOk(p, m) && y in m.carriers
    ensures h <= y && h in m.carriers && |p.nodes[h].inputs| > 0 && p.nodes[h].inputs[0] < h
    ensures p.nodes[h].kind != 0 && p.nodes[p.nodes[h].inputs[0]].kind == 0
    decreases y
  {
    assert CarrierOk(p, m, y);
    if p.nodes[p.nodes[y].inputs[0]].kind == 0 then y else Holder(p, m, p.nodes[y].inputs[0])
  }

  function Carried(p: Plan, m: Mode, y: nat): nat
    requires Validated(p) && ModeOk(p, m) && y in m.carriers
  {
    p.nodes[Holder(p, m, y)].inputs[0]
  }

  lemma CarriersOpaque(p: Plan, m: Mode)
    requires ModeOk(p, m)
    ensures forall v | v in m.carriers :: v < |p.nodes| && p.nodes[v].kind != 0
  {
    forall v | v in m.carriers ensures v < |p.nodes| && p.nodes[v].kind != 0 {
      assert CarrierOk(p, m, v);
    }
  }

  /** Every value in a storage of its own. */
  ghost function Pure(p: Plan, m: Mode, ops: Kernels, i: nat): (v: Rows)
    requires Setting(p, m, ops) && i < |p.nodes|
    ensures p.nodes[i].kind == 0 ==> Wide(v, p.nodes[i].width)
    decreases i, 0
  {
    var n := p.nodes[i];
    if n.op == "slice" then
      DerivedFacts(p, m, i);
      Columns(Pure(p, m, ops, n.inputs[0]), Offset(n), n.width)
    else
      var ins := seq(|n.inputs|, j requires 0 <= j < |n.inputs| => Operand(p, m, ops, n.inputs[j]));
      assert Fits(p, i, ins);
      ops(i, ins)
  }

  /** What a kernel is handed for operand `y`: its value, and a copy of what that value refers to. */
  ghost function Operand(p: Plan, m: Mode, ops: Kernels, y: nat): (v: Rows)
    requires Setting(p, m, ops) && y < |p.nodes|
    ensures p.nodes[y].kind == 0 ==> Wide(v, p.nodes[y].width)
    decreases y, 1
  {
    CarriersOpaque(p, m);
    if y in m.carriers then Pure(p, m, ops, y) + Pure(p, m, ops, Carried(p, m, y)) else Pure(p, m, ops, y)
  }

  datatype Place = Place(root: nat, start: nat)

  /** Where node `i` really lives. */
  ghost function Home(p: Plan, m: Mode, i: nat): (at: Place)
    requires Validated(p) && ModeOk(p, m) && i < |p.nodes|
    ensures at.root <= i && !Aliases(p, m, at.root) && p.nodes[at.root].kind == p.nodes[i].kind
    ensures at.start + p.nodes[i].width <= p.nodes[at.root].width
  {
    if Aliases(p, m, i) then
      DerivedFacts(p, m, i);
      var at := Home(p, m, p.nodes[i].inputs[0]);
      Place(at.root, at.start + Offset(p.nodes[i]))
    else Place(i, 0)
  }

  /** `o` is on the chain of aliases that leads from `x` to its storage. */
  ghost predicate OnLine(p: Plan, m: Mode, x: nat, o: nat)
    requires Validated(p) && ModeOk(p, m) && x < |p.nodes|
    decreases x
  {
    x == o || (Aliases(p, m, x) && (DerivedFacts(p, m, x); OnLine(p, m, p.nodes[x].inputs[0], o)))
  }

  lemma {:induction false} LineGoesDown(p: Plan, m: Mode, x: nat, o: nat)
    requires Validated(p) && ModeOk(p, m) && x < |p.nodes| && OnLine(p, m, x, o)
    ensures o <= x
    decreases x
  {
    if x != o {
      DerivedFacts(p, m, x);
      LineGoesDown(p, m, p.nodes[x].inputs[0], o);
    }
  }

  ghost predicate Overwrites(p: Plan, o: nat) {
    o < |p.nodes| && p.nodes[o].op == "mome_inplace"
  }

  ghost predicate Disjoint(p: Plan, m: Mode, o: nat, y: nat)
    requires Validated(p) && ModeOk(p, m) && o < |p.nodes| && y < |p.nodes|
  {
    var a, b := Home(p, m, o), Home(p, m, y);
    a.root != b.root || a.start + p.nodes[o].width <= b.start || b.start + p.nodes[y].width <= a.start
  }

  // ------------------------------------------ what the check rules out: any mode

  lemma {:induction false} TwoReaders(p: Plan, n: nat, g: nat, i: nat, j: nat)
    requires i < j < n <= |p.nodes| && g in p.nodes[i].inputs && g in p.nodes[j].inputs
    ensures Edges(p.nodes, n, g) >= 2
    decreases n
  {
    if j < n - 1 {
      TwoReaders(p, n - 1, g, i, j);
    } else {
      var k :| 0 <= k < |p.nodes[j].inputs| && p.nodes[j].inputs[k] == g;
      OccursCounted(p.nodes[j].inputs, k);
      var m :| 0 <= m < |p.nodes[i].inputs| && p.nodes[i].inputs[m] == g;
      EdgeCounted(p.nodes, n - 1, i, m);
    }
  }

  /** Head-major storage is only ever reached through its one layout operator. */
  lemma {:induction false} NoSliceOfHeads(p: Plan, y: nat)
    requires Validated(p) && y < |p.nodes| && Walk(p, y).Some? && Walk(p, y).value.root < |p.nodes|
    requires HeadMajor(p.nodes[Walk(p, y).value.root].op)
    ensures y == Walk(p, y).value.root
    decreases y
  {
    var g := Walk(p, y).value.root;
    if p.nodes[y].op == "slice" {
      NoSliceOfHeads(p, p.nodes[y].inputs[0]);
      ReaderOfHeads(p, g, y);
    }
  }

  lemma ReaderOfHeads(p: Plan, g: nat, y: nat)
    requires Validated(p) && g < |p.nodes| && HeadMajor(p.nodes[g].op) && y < |p.nodes| && g in p.nodes[y].inputs
    ensures p.nodes[y].op == "head_to_token"
  {
    hide Exclusive, HeadsOk, LayoutOk, SliceOk, ConvolutionOk;
    assert NodeContract(p, g);
  }

  lemma SoleReader(p: Plan, g: nat, i: nat, j: nat)
    requires Validated(p) && g < |p.nodes| && HeadMajor(p.nodes[g].op)
    requires i < |p.nodes| && j < |p.nodes| && g in p.nodes[i].inputs && g in p.nodes[j].inputs
    ensures i == j
  {
    hide Exclusive, HeadsOk, LayoutOk, SliceOk, ConvolutionOk;
    assert NodeContract(p, g);
    if i < j { TwoReaders(p, |p.nodes|, g, i, j); }
    if j < i { TwoReaders(p, |p.nodes|, g, j, i); }
  }

  /** The region the convolution `o` overwrites, as its contract describes it. */
  lemma OwnerFacts(p: Plan, o: nat) returns (a: Region)
    requires Validated(p) && Overwrites(p, o)
    ensures |p.nodes[o].inputs| == 1 && p.nodes[o].inputs[0] < o && Walk(p, p.nodes[o].inputs[0]) == Some(a)
    ensures a.root < o && Fresh(p.nodes[a.root].op) && a.width == p.nodes[o].width
    ensures ClearOf(p, a, p.output)
    ensures forall j, k |
      0 <= j < |p.nodes| && j != o && p.nodes[j].op != "slice" && 0 <= k < |p.nodes[j].inputs| ::
      ClearOf(p, a, p.nodes[j].inputs[k])
    ensures p.nodes[a.root].op == "head_to_token" ==>
      && |p.nodes[a.root].inputs| > 0 && p.nodes[a.root].inputs[0] < |p.nodes|
      && HeadMajor(p.nodes[p.nodes[a.root].inputs[0]].op)
  {
    hide RelayedOnce, HeadsOk, SliceOk, Walk;
    assert NodeContract(p, o);
    var input := p.nodes[o].inputs[0];
    a := Walk(p, input).value;
    WalkInPlan(p, input);
    assert NodeContract(p, a.root);
  }

  /** The check found `y` clear of what `o` overwrites. */
  ghost predicate ClearFrom(p: Plan, o: nat, y: nat)
    requires Topological(p.nodes) && o < |p.nodes| && y < |p.nodes|
  {
    && |p.nodes[o].inputs| > 0 && Walk(p, p.nodes[o].inputs[0]).Some?
    && ClearOf(p, Walk(p, p.nodes[o].inputs[0]).value, y)
  }

  /** Every operand of every kernel is clear of every overwrite but the kernel's own. */
  lemma ReadIsClear(p: Plan, o: nat, j: nat, k: nat)
    requires Validated(p) && Overwrites(p, o) && j < |p.nodes| && o != j
    requires p.nodes[j].op != "slice" && k < |p.nodes[j].inputs|
    ensures p.nodes[j].inputs[k] < |p.nodes| && ClearFrom(p, o, p.nodes[j].inputs[k])
  {
    hide Contracts, Walk;
    var a := OwnerFacts(p, o);
  }

  lemma OutputIsClear(p: Plan, o: nat)
    requires Validated(p) && Overwrites(p, o)
    ensures ClearFrom(p, o, p.output)
  {
    hide Contracts, Walk;
    var a := OwnerFacts(p, o);
  }

  // ---------------------------------------- what the check rules out: one token

  /** The region the check computes, in terms of the storage actually used. */
  lemma {:induction false} WalkIsHome(p: Plan, m: Mode, y: nat)
    requires Validated(p) && ModeOk(p, m) && m.single && y < |p.nodes|
    ensures Walk(p, y).Some?
    ensures var r := Walk(p, y).value;
      && r.root <= y && p.nodes[r.root].op != "slice" && r.width == p.nodes[y].width
      && r.start + r.width <= p.nodes[r.root].width
      && Home(p, m, y) == Place(Home(p, m, r.root).root, Home(p, m, r.root).start + r.start)
    decreases y
  {
    if p.nodes[y].op == "slice" {
      DerivedFacts(p, m, y);
      WalkIsHome(p, m, p.nodes[y].inputs[0]);
    }
  }

  lemma {:induction false} LineThroughWalk(p: Plan, m: Mode, y: nat, o: nat)
    requires Validated(p) && ModeOk(p, m) && m.single && y < |p.nodes|
    requires Walk(p, y).Some? && Walk(p, y).value.root < |p.nodes| && OnLine(p, m, Walk(p, y).value.root, o)
    ensures OnLine(p, m, y, o)
    decreases y
  {
    if p.nodes[y].op == "slice" {
      DerivedFacts(p, m, y);
      LineThroughWalk(p, m, p.nodes[y].inputs[0], o);
    }
  }

  /** `y` is not the head-major storage behind the layout operator whose result `o` overwrites. */
  ghost predicate NotRelayedTo(p: Plan, a: Region, y: nat)
    requires Validated(p) && a.root < |p.nodes| && y < |p.nodes|
  {
    p.nodes[a.root].op == "head_to_token" && |p.nodes[a.root].inputs| > 0 ==>
      Walk(p, y).Some? && Walk(p, y).value.root != p.nodes[a.root].inputs[0]
  }

  /** The heart: a value found clear of `o`, and that is not a view of `o`'s result, shares nothing with it. */
  lemma {:induction false} ClearIsDisjoint(p: Plan, m: Mode, o: nat, a: Region, y: nat)
    requires Validated(p) && ModeOk(p, m) && m.single && Overwrites(p, o) && y < |p.nodes|
    requires |p.nodes[o].inputs| == 1 && p.nodes[o].inputs[0] < o && Walk(p, p.nodes[o].inputs[0]) == Some(a)
    requires a.root < |p.nodes| && ClearOf(p, a, y) && NotRelayedTo(p, a, y) && !OnLine(p, m, y, o)
    ensures Disjoint(p, m, o, y)
    decreases y
  {
    hide Contracts, Walk;
    var same := OwnerFacts(p, o);
    OwnerLives(p, m, o, a);
    WalkIsHome(p, m, y);
    var r := Walk(p, y).value;
    if r.root != a.root {
      if Aliases(p, m, r.root) {
        DerivedFacts(p, m, r.root);
        var z := p.nodes[r.root].inputs[0];
        if r.root == o || OnLine(p, m, z, o) {
          assert OnLine(p, m, r.root, o);
          LineThroughWalk(p, m, y, o);
        } else {
          assert ClearOf(p, a, z);
          StillNotRelayed(p, m, a, r.root);
          ClearIsDisjoint(p, m, o, a, z);
        }
      } else {
        RootHome(p, m, a);
      }
    }
  }

  lemma {:induction false} RegionIsTensor(p: Plan, m: Mode, y: nat)
    requires Validated(p) && ModeOk(p, m) && y < |p.nodes| && p.nodes[y].kind == 0
    ensures Walk(p, y).Some? ==> Walk(p, y).value.root < |p.nodes| && p.nodes[Walk(p, y).value.root].kind == 0
    decreases y
  {
    if p.nodes[y].op == "slice" {
      DerivedFacts(p, m, y);
      RegionIsTensor(p, m, p.nodes[y].inputs[0]);
    }
  }

  lemma OwnerLives(p: Plan, m: Mode, o: nat, a: Region)
    requires Validated(p) && ModeOk(p, m) && m.single && Overwrites(p, o) && a.root < |p.nodes|
    requires |p.nodes[o].inputs| == 1 && p.nodes[o].inputs[0] < o && Walk(p, p.nodes[o].inputs[0]) == Some(a)
    ensures Home(p, m, o) == Place(Home(p, m, a.root).root, Home(p, m, a.root).start + a.start)
  {
    hide Contracts, Walk;
    DerivedFacts(p, m, o);
    WalkIsHome(p, m, p.nodes[o].inputs[0]);
  }

  /** A view that is not the layout operator itself cannot be a view of what that operator reads. */
  lemma StillNotRelayed(p: Plan, m: Mode, a: Region, v: nat)
    requires Validated(p) && ModeOk(p, m) && m.single && a.root < |p.nodes| && v < |p.nodes| && v != a.root
    requires Aliases(p, m, v) && p.nodes[v].op != "slice"
    requires p.nodes[a.root].op == "head_to_token" ==>
      && |p.nodes[a.root].inputs| > 0 && p.nodes[a.root].inputs[0] < |p.nodes|
      && HeadMajor(p.nodes[p.nodes[a.root].inputs[0]].op)
    requires |p.nodes[v].inputs| > 0 && p.nodes[v].inputs[0] < |p.nodes|
    ensures NotRelayedTo(p, a, p.nodes[v].inputs[0])
  {
    hide Contracts;
    var z := p.nodes[v].inputs[0];
    WalkIsHome(p, m, z);
    if p.nodes[a.root].op == "head_to_token" && Walk(p, z).value.root == p.nodes[a.root].inputs[0] {
      NoSliceOfHeads(p, z);
      assert z in p.nodes[v].inputs && z in p.nodes[a.root].inputs;
      SoleReader(p, z, v, a.root);
    }
  }

  /** A fresh root lives in its own storage, or in the head-major storage it relays. */
  lemma RootHome(p: Plan, m: Mode, a: Region)
    requires Validated(p) && ModeOk(p, m) && a.root < |p.nodes| && Fresh(p.nodes[a.root].op)
    requires p.nodes[a.root].op == "head_to_token" ==>
      && |p.nodes[a.root].inputs| > 0 && p.nodes[a.root].inputs[0] < |p.nodes|
      && HeadMajor(p.nodes[p.nodes[a.root].inputs[0]].op)
    ensures
      || Home(p, m, a.root).root == a.root
      || (&& p.nodes[a.root].op == "head_to_token" && |p.nodes[a.root].inputs| > 0
          && Home(p, m, a.root).root == p.nodes[a.root].inputs[0])
  {
    hide Contracts;
    if Aliases(p, m, a.root) {
      ViewFacts(p, m, a.root);
      ViewFacts(p, m, p.nodes[a.root].inputs[0]);
    }
  }

  /** With one token, whatever a kernel reads no overwrite has touched, save on purpose. */
  lemma ReadIsUntouched(p: Plan, m: Mode, o: nat, j: nat, k: nat)
    requires Validated(p) && ModeOk(p, m) && m.single && Overwrites(p, o)
    requires j < |p.nodes| && (o < j || p.nodes[j].kind != 0)
    requires p.nodes[j].op != "slice" && k < |p.nodes[j].inputs|
    ensures p.nodes[j].inputs[k] < |p.nodes|
    ensures OnLine(p, m, p.nodes[j].inputs[k], o) || Disjoint(p, m, o, p.nodes[j].inputs[k])
  {
    hide Contracts;
    var a := OwnerFacts(p, o);
    OwnerLives(p, m, o, a);
    DerivedFacts(p, m, o);
    RegionIsTensor(p, m, p.nodes[o].inputs[0]);
    var y := p.nodes[j].inputs[k];
    if !OnLine(p, m, y, o) {
      WalkIsHome(p, m, y);
      if p.nodes[a.root].op == "head_to_token" && Walk(p, y).value.root == p.nodes[a.root].inputs[0] {
        NoSliceOfHeads(p, y);
        assert y in p.nodes[a.root].inputs && y in p.nodes[j].inputs;
        SoleReader(p, y, a.root, j);
      } else {
        ClearIsDisjoint(p, m, o, a, y);
      }
    }
  }

  /** The output is no head-major storage and no slice of one. */
  lemma OutputIsNotHeads(p: Plan)
    requires Validated(p) && Walk(p, p.output).Some? && Walk(p, p.output).value.root < |p.nodes|
    ensures !HeadMajor(p.nodes[Walk(p, p.output).value.root].op)
  {
    hide Exclusive, HeadsOk, LayoutOk, SliceOk, ConvolutionOk;
    if HeadMajor(p.nodes[Walk(p, p.output).value.root].op) {
      NoSliceOfHeads(p, p.output);
    }
    assert NodeContract(p, p.output);
  }

  lemma OutputIsUntouched(p: Plan, m: Mode, o: nat)
    requires Validated(p) && ModeOk(p, m) && m.single && Overwrites(p, o)
    ensures OnLine(p, m, p.output, o) || Disjoint(p, m, o, p.output)
  {
    hide Exclusive, HeadsOk, LayoutOk, SliceOk, ConvolutionOk;
    var a := OwnerFacts(p, o);
    OwnerLives(p, m, o, a);
    if !OnLine(p, m, p.output, o) {
      WalkIsHome(p, m, p.output);
      OutputIsNotHeads(p);
      ClearIsDisjoint(p, m, o, a, p.output);
    }
  }

  // ------------------------------------------------------------ touched columns

  /** Column `at` of the storage of `root` is among those `o` overwrites. */
  ghost predicate Covers(p: Plan, m: Mode, o: nat, root: nat, at: nat)
    requires Validated(p) && ModeOk(p, m) && o < |p.nodes|
  {
    Home(p, m, o).root == root && Home(p, m, o).start <= at < Home(p, m, o).start + p.nodes[o].width
  }

  /**
   * After `n` nodes no convolution has overwritten column `e` of `x`, except one that `x` is a view of; nor had
   * one overwritten the column it was taken from, when it was taken.
   */
  ghost predicate Untouched(p: Plan, m: Mode, n: nat, x: nat, e: nat)
    requires Validated(p) && ModeOk(p, m) && x < |p.nodes|
    decreases x
  {
    && (forall o: nat | o < n && Overwrites(p, o) && !OnLine(p, m, x, o) ::
          !Covers(p, m, o, Home(p, m, x).root, Home(p, m, x).start + e))
    && (Derived(p, m, x) ==>
          (DerivedFacts(p, m, x); Untouched(p, m, x, p.nodes[x].inputs[0], Offset(p.nodes[x]) + e)))
  }

  /** A later count of nodes only touches more. */
  lemma UntouchedEarlier(p: Plan, m: Mode, n: nat, x: nat, e: nat)
    requires Validated(p) && ModeOk(p, m) && x < |p.nodes| && Untouched(p, m, n + 1, x, e)
    ensures Untouched(p, m, n, x, e)
  {
  }

  /** With one token a slice is a view, so only its own place matters. */
  lemma {:induction false} SingleUntouched(p: Plan, m: Mode, n: nat, x: nat, e: nat)
    requires Validated(p) && ModeOk(p, m) && m.single && x < |p.nodes| && x <= n
    requires forall o: nat | o < n && Overwrites(p, o) && !OnLine(p, m, x, o) ::
      !Covers(p, m, o, Home(p, m, x).root, Home(p, m, x).start + e)
    ensures Untouched(p, m, n, x, e)
    decreases x
  {
    hide Covers, Contracts, ModeOk;
    if Derived(p, m, x) {
      DerivedFacts(p, m, x);
      var y, f := p.nodes[x].inputs[0], Offset(p.nodes[x]) + e;
      assert Home(p, m, x) == Place(Home(p, m, y).root, Home(p, m, y).start + Offset(p.nodes[x]));
      forall o: nat | o < x && Overwrites(p, o) && !OnLine(p, m, y, o)
        ensures !Covers(p, m, o, Home(p, m, y).root, Home(p, m, y).start + f)
      {
        assert !OnLine(p, m, x, o);
        assert !Covers(p, m, o, Home(p, m, x).root, Home(p, m, x).start + e);
      }
      SingleUntouched(p, m, x, y, f);
    }
  }

  // ----------------------------------- what the check rules out: several tokens

  /** With copied slices a convolution owns the whole storage of its input. */
  lemma CopiedHome(p: Plan, m: Mode, o: nat)
    requires Validated(p) && ModeOk(p, m) && !m.single && Overwrites(p, o)
    ensures |p.nodes[o].inputs| == 1 && p.nodes[o].inputs[0] < o
    ensures Home(p, m, o) == Place(p.nodes[o].inputs[0], 0)
  {
    hide Contracts;
    var a := OwnerFacts(p, o);
    DerivedFacts(p, m, o);
    ViewFacts(p, m, p.nodes[o].inputs[0]);
  }

  /** Nobody but the convolution itself looks at its input or through it. */
  lemma {:induction false} ElsewhereUncovered(p: Plan, m: Mode, o: nat, x: nat, at: nat)
    requires Validated(p) && ModeOk(p, m) && !m.single && Overwrites(p, o) && x < |p.nodes|
    requires |p.nodes[o].inputs| == 1 && x != p.nodes[o].inputs[0] && !OnLine(p, m, x, o)
    ensures !Covers(p, m, o, Home(p, m, x).root, at)
    decreases x
  {
    hide Contracts;
    CopiedHome(p, m, o);
    var z := p.nodes[o].inputs[0];
    if Aliases(p, m, x) {
      DerivedFacts(p, m, x);
      if p.nodes[x].inputs[0] == z {
        if p.nodes[o].width > 0 {
          ReadIsClear(p, o, x, 0);
          assert false;
        }
      } else {
        ElsewhereUncovered(p, m, o, p.nodes[x].inputs[0], at);
      }
    }
  }

  /** `y` is a slice of a slice of … `x`. */
  ghost predicate SlicedFrom(p: Plan, y: nat, x: nat)
    requires Topological(p.nodes) && y < |p.nodes|
    decreases y
  {
    y == x || (p.nodes[y].op == "slice" && p.nodes[y].inputs != [] && SlicedFrom(p, p.nodes[y].inputs[0], x))
  }

  lemma {:induction false} SlicedInside(p: Plan, m: Mode, y: nat, x: nat)
    requires Validated(p) && ModeOk(p, m) && y < |p.nodes| && SlicedFrom(p, y, x)
    ensures x <= y && (Walk(p, y).Some? ==> Walk(p, x).Some?)
    ensures Walk(p, y).Some? ==>
      && Walk(p, y).value.root == Walk(p, x).value.root && Walk(p, x).value.start <= Walk(p, y).value.start
      && Walk(p, y).value.start + p.nodes[y].width <= Walk(p, x).value.start + p.nodes[x].width
      && Walk(p, x).value.width == p.nodes[x].width && Walk(p, y).value.width == p.nodes[y].width
    decreases y
  {
    hide Contracts, ModeOk;
    if y != x {
      DerivedFacts(p, m, y);
      SlicedInside(p, m, p.nodes[y].inputs[0], x);
    } else if Walk(p, y).Some? {
      WalkInPlan(p, y);
    }
  }

  lemma {:induction false} SlicedOn(p: Plan, y: nat, x: nat)
    requires Topological(p.nodes) && y < |p.nodes| && SlicedFrom(p, y, x) && x < |p.nodes|
    requires p.nodes[x].op == "slice" && p.nodes[x].inputs != []
    ensures SlicedFrom(p, y, p.nodes[x].inputs[0])
    decreases y
  {
    if y != x {
      SlicedOn(p, p.nodes[y].inputs[0], x);
    }
  }

  /** What a clear value is sliced from is nothing `o` overwrites as a whole. */
  lemma NotItsInput(p: Plan, m: Mode, o: nat, y: nat, x: nat)
    requires Validated(p) && ModeOk(p, m) && Overwrites(p, o) && y < |p.nodes| && p.nodes[y].width > 0
    requires SlicedFrom(p, y, x) && ClearFrom(p, o, y)
    ensures |p.nodes[o].inputs| == 1 && x != p.nodes[o].inputs[0]
  {
    hide Contracts, ModeOk, Walk;
    var a := OwnerFacts(p, o);
    SlicedInside(p, m, y, x);
  }

  /** With several tokens every copy on the way to a clear value was taken from untouched columns. */
  lemma {:induction false} CopiesUntouched(p: Plan, m: Mode, n: nat, y: nat, x: nat, e: nat)
    requires Validated(p) && ModeOk(p, m) && !m.single && x < |p.nodes| && y < |p.nodes| && x <= n
    requires SlicedFrom(p, y, x) && p.nodes[y].width > 0 && e < p.nodes[x].width
    requires forall o: nat | o < n && Overwrites(p, o) :: ClearFrom(p, o, y)
    ensures Untouched(p, m, n, x, e)
    decreases x
  {
    hide Contracts, ModeOk, Covers, ClearFrom, Home, OnLine;
    forall o: nat | o < n && Overwrites(p, o) && !OnLine(p, m, x, o)
      ensures !Covers(p, m, o, Home(p, m, x).root, Home(p, m, x).start + e)
    {
      NotItsInput(p, m, o, y, x);
      ElsewhereUncovered(p, m, o, x, Home(p, m, x).start + e);
    }
    if Derived(p, m, x) {
      DerivedFacts(p, m, x);
      var z := p.nodes[x].inputs[0];
      if p.nodes[x].op == "slice" {
        SlicedOn(p, y, x);
        CopiesUntouched(p, m, x, y, z, Offset(p.nodes[x]) + e);
      } else {
        forall o: nat | o < x && Overwrites(p, o) ensures ClearFrom(p, o, z) {
          ReadIsClear(p, o, x, 0);
        }
        CopiesUntouched(p, m, x, z, z, Offset(p.nodes[x]) + e);
      }
    }
  }

  // ------------------------------------------------------- reading, in any mode

  /** A value is intact after `n` nodes. */
  ghost predicate Intact(p: Plan, m: Mode, n: nat, y: nat)
    requires Validated(p) && ModeOk(p, m) && y < |p.nodes|
  {
    forall e: nat | e < p.nodes[y].width :: Untouched(p, m, n, y, e)
  }

  lemma DisjointIsIntact(p: Plan, m: Mode, n: nat, y: nat)
    requires Validated(p) && ModeOk(p, m) && m.single && y < |p.nodes| && y <= n
    requires forall o: nat | o < n && Overwrites(p, o) :: OnLine(p, m, y, o) || Disjoint(p, m, o, y)
    ensures Intact(p, m, n, y)
  {
    hide Untouched, Contracts, ModeOk, OnLine, Home;
    forall e: nat | e < p.nodes[y].width ensures Untouched(p, m, n, y, e) {
      SingleUntouched(p, m, n, y, e);
    }
  }

  /** What kernel `j` reads is intact as long as `j` itself has not overwritten it. */
  lemma ReadIsIntact(p: Plan, m: Mode, n: nat, j: nat, k: nat)
    requires Validated(p) && ModeOk(p, m) && j < |p.nodes| && p.nodes[j].op != "slice" && k < |p.nodes[j].inputs|
    requires n <= j || p.nodes[j].kind != 0
    requires p.nodes[j].inputs[k] <= n
    ensures p.nodes[j].inputs[k] < |p.nodes| && Intact(p, m, n, p.nodes[j].inputs[k])
  {
    hide Contracts, ModeOk, Untouched, ClearFrom, OnLine, Disjoint;
    var y := p.nodes[j].inputs[k];
    forall o: nat | o < n && Overwrites(p, o) ensures o < j || (p.nodes[j].kind != 0 && o != j) {
      DerivedFacts(p, m, o);
    }
    if m.single {
      forall o: nat | o < n && Overwrites(p, o) ensures OnLine(p, m, y, o) || Disjoint(p, m, o, y) {
        ReadIsUntouched(p, m, o, j, k);
      }
      DisjointIsIntact(p, m, n, y);
    } else {
      forall o: nat | o < n && Overwrites(p, o) ensures ClearFrom(p, o, y) {
        ReadIsClear(p, o, j, k);
      }
      forall e: nat | e < p.nodes[y].width ensures Untouched(p, m, n, y, e) {
        CopiesUntouched(p, m, n, y, y, e);
      }
    }
  }

  lemma OutputIsIntact(p: Plan, m: Mode)
    requires Validated(p) && ModeOk(p, m)
    ensures Intact(p, m, |p.nodes|, p.output)
  {
    hide Contracts, ModeOk, Untouched, ClearFrom, OnLine, Disjoint;
    var n, y := |p.nodes|, p.output;
    if m.single {
      forall o: nat | o < n && Overwrites(p, o) ensures OnLine(p, m, y, o) || Disjoint(p, m, o, y) {
        OutputIsUntouched(p, m, o);
      }
      DisjointIsIntact(p, m, n, y);
    } else {
      forall o: nat | o < n && Overwrites(p, o) ensures ClearFrom(p, o, y) {
        OutputIsClear(p, o);
      }
      forall e: nat | e < p.nodes[y].width ensures Untouched(p, m, n, y, e) {
        CopiesUntouched(p, m, n, y, y, e);
      }
    }
  }

  // ------------------------------------------------------------------ the run

  type Memory = map<nat, Rows>

  ghost predicate Stored(p: Plan, m: Mode, n: nat, memory: Memory)
    requires Validated(p) && ModeOk(p, m) && n <= |p.nodes|
  {
    forall r: nat | r < n && !Aliases(p, m, r) ::
      r in memory && (p.nodes[r].kind == 0 ==> Wide(memory[r], p.nodes[r].width))
  }

  /** Column `i` of `a` is column `j` of `b`. */
  ghost predicate SameColumn(a: Rows, i: nat, b: Rows, j: nat) {
    |a| == |b| && forall r | 0 <= r < |a| :: i < |a[r]| && j < |b[r]| && a[r][i] == b[r][j]
  }

  /** Column `e` of `x` is in its place. */
  ghost predicate Found(p: Plan, m: Mode, ops: Kernels, memory: Memory, x: nat, e: nat)
    requires Setting(p, m, ops) && x < |p.nodes|
  {
    var at := Home(p, m, x);
    at.root in memory && SameColumn(memory[at.root], at.start + e, Pure(p, m, ops, x), e)
  }

  ghost predicate ValueAgrees(p: Plan, m: Mode, ops: Kernels, n: nat, memory: Memory, x: nat)
    requires Setting(p, m, ops) && n <= |p.nodes| && Stored(p, m, n, memory) && x < n
  {
    if p.nodes[x].kind == 0 then
      && |memory[Home(p, m, x).root]| == |Pure(p, m, ops, x)|
      && forall e: nat | e < p.nodes[x].width && Untouched(p, m, n, x, e) :: Found(p, m, ops, memory, x, e)
    else memory[Home(p, m, x).root] == Pure(p, m, ops, x)
  }

  /** What is in memory after `n` nodes. */
  ghost predicate Agrees(p: Plan, m: Mode, ops: Kernels, n: nat, memory: Memory) {
    && Setting(p, m, ops) && n <= |p.nodes| && Stored(p, m, n, memory)
    && forall x: nat | x < n :: ValueAgrees(p, m, ops, n, memory, x)
  }

  function Load(memory: Memory, at: Place, width: nat): Rows
    requires at.root in memory && Reaches(memory[at.root], at.start + width)
  {
    Columns(memory[at.root], at.start, width)
  }

  predicate CanSave(memory: Memory, at: Place, v: Rows) {
    && at.root in memory && |v| == |memory[at.root]|
    && forall r | 0 <= r < |v| :: at.start + |v[r]| <= |memory[at.root][r]|
  }

  function Save(memory: Memory, at: Place, v: Rows): Memory
    requires CanSave(memory, at, v)
  {
    var was := memory[at.root];
    memory[at.root := seq(|v|, r requires 0 <= r < |v| => was[r][..at.start] + v[r] + was[r][at.start + |v[r]|..])]
  }

  /** Reading an intact value finds its pure value. */
  lemma LoadIsPure(p: Plan, m: Mode, ops: Kernels, n: nat, memory: Memory, y: nat)
    requires Agrees(p, m, ops, n, memory) && y < n && p.nodes[y].kind == 0 && Intact(p, m, n, y)
    ensures var at := Home(p, m, y);
      && at.root in memory && Reaches(memory[at.root], at.start + p.nodes[y].width)
      && Load(memory, at, p.nodes[y].width) == Pure(p, m, ops, y)
  {
    hide KernelsOk, ModeOk, Contracts, Pure, Untouched;
    assert ValueAgrees(p, m, ops, n, memory, y);
    var at, v := Home(p, m, y), Pure(p, m, ops, y);
    var got := Load(memory, at, p.nodes[y].width);
    forall r | 0 <= r < |v| ensures got[r] == v[r] {
      forall e: nat | e < p.nodes[y].width ensures got[r][e] == v[r][e] {
        assert Untouched(p, m, n, y, e) && Found(p, m, ops, memory, y, e);
      }
    }
  }

  /** Every operand of the next kernel is found as the pure run has it, references included. */
  lemma OperandIsPure(p: Plan, m: Mode, ops: Kernels, n: nat, memory: Memory, k: nat)
    requires Agrees(p, m, ops, n, memory) && n < |p.nodes|
    requires p.nodes[n].op != "slice" && k < |p.nodes[n].inputs|
    ensures var y := p.nodes[n].inputs[k];
      && y < n && Home(p, m, y).root in memory
      && (if p.nodes[y].kind != 0 then memory[Home(p, m, y).root] == Pure(p, m, ops, y)
          else Reaches(memory[Home(p, m, y).root], Home(p, m, y).start + p.nodes[y].width)
               && Load(memory, Home(p, m, y), p.nodes[y].width) == Pure(p, m, ops, y))
  {
    hide ModeOk, Contracts, KernelsOk, Untouched, Pure, Intact;
    var y := p.nodes[n].inputs[k];
    assert ValueAgrees(p, m, ops, n, memory, y);
    if p.nodes[y].kind == 0 {
      ReadIsIntact(p, m, n, n, k);
      LoadIsPure(p, m, ops, n, memory, y);
    }
  }

  lemma ReferenceIsPure(p: Plan, m: Mode, ops: Kernels, n: nat, memory: Memory, y: nat)
    requires Agrees(p, m, ops, n, memory) && y < n && y in m.carriers
    ensures var x := Carried(p, m, y);
      && x < n && Home(p, m, x).root in memory
      && Reaches(memory[Home(p, m, x).root], Home(p, m, x).start + p.nodes[x].width)
      && Load(memory, Home(p, m, x), p.nodes[x].width) == Pure(p, m, ops, x)
  {
    hide ModeOk, Contracts, KernelsOk, Untouched, Pure, Intact, Stored, ValueAgrees;
    var h := Holder(p, m, y);
    HolderReads(p, m, h);
    ReadIsIntact(p, m, n, h, 0);
    LoadIsPure(p, m, ops, n, memory, Carried(p, m, y));
  }

  lemma HolderReads(p: Plan, m: Mode, h: nat)
    requires Validated(p) && ModeOk(p, m) && h in m.carriers
    ensures h < |p.nodes| && p.nodes[h].kind != 0 && p.nodes[h].op != "slice"
  {
    assert CarrierOk(p, m, h);
    assert NodeContract(p, h);
  }

  lemma WholeColumns(v: Rows, width: nat)
    requires Wide(v, width)
    ensures Columns(v, 0, width) == v
  {
    forall r | 0 <= r < |v| ensures Columns(v, 0, width)[r] == v[r] {
    }
  }

  /** A view, or a copied slice, is a stretch of its input. */
  lemma PureOfDerived(p: Plan, m: Mode, ops: Kernels, n: nat)
    requires Setting(p, m, ops) && n < |p.nodes| && Derived(p, m, n)
    ensures |p.nodes[n].inputs| > 0 && p.nodes[n].inputs[0] < n
    ensures var v := Pure(p, m, ops, p.nodes[n].inputs[0]);
      && Reaches(v, Offset(p.nodes[n]) + p.nodes[n].width)
      && Pure(p, m, ops, n) == Columns(v, Offset(p.nodes[n]), p.nodes[n].width)
  {
    DerivedFacts(p, m, n);
    CarriersOpaque(p, m);
    var node := p.nodes[n];
    var v := Pure(p, m, ops, node.inputs[0]);
    if node.op != "slice" {
      var ins := seq(|node.inputs|, j requires 0 <= j < |node.inputs| => Operand(p, m, ops, node.inputs[j]));
      assert Fits(p, n, ins) && ins[0] == v;
      assert ops(n, ins) == ins[0];
      WholeColumns(v, node.width);
    }
  }

  lemma PureOfKernel(p: Plan, m: Mode, ops: Kernels, n: nat, ins: seq<Rows>)
    requires Setting(p, m, ops) && n < |p.nodes| && p.nodes[n].op != "slice" && |ins| == |p.nodes[n].inputs|
    requires forall k | 0 <= k < |ins| ::
      p.nodes[n].inputs[k] < n && ins[k] == Operand(p, m, ops, p.nodes[n].inputs[k])
    ensures ops(n, ins) == Pure(p, m, ops, n)
    ensures p.nodes[n].op == "mome_inplace" && ins != [] ==> |ops(n, ins)| == |ins[0]|
  {
    var node := p.nodes[n];
    assert ins == seq(|node.inputs|, j requires 0 <= j < |node.inputs| => Operand(p, m, ops, node.inputs[j]));
    assert Fits(p, n, ins);
  }

  /** What was right stays right while nothing is written. */
  lemma StepView(p: Plan, m: Mode, ops: Kernels, n: nat, memory: Memory)
    requires Agrees(p, m, ops, n, memory) && n < |p.nodes| && Derived(p, m, n) && Aliases(p, m, n)
    ensures Agrees(p, m, ops, n + 1, memory)
  {
    hide KernelsOk, ModeOk, Contracts, Pure, Untouched, OnLine, Found, Home;
    DerivedFacts(p, m, n);
    PureOfDerived(p, m, ops, n);
    AliasHome(p, m, n);
    var y, more := p.nodes[n].inputs[0], n + 1;
    assert ValueAgrees(p, m, ops, n, memory, y);
    forall x: nat | x < more ensures ValueAgrees(p, m, ops, more, memory, x) {
      if x < n {
        assert ValueAgrees(p, m, ops, n, memory, x);
      }
      forall e: nat | p.nodes[x].kind == 0 && e < p.nodes[x].width && Untouched(p, m, more, x, e)
        ensures Found(p, m, ops, memory, x, e)
      {
        if x < n {
          UntouchedEarlier(p, m, n, x, e);
        } else {
          TakenUntouched(p, m, n, e);
          FoundInView(p, m, ops, n, memory, e);
        }
      }
    }
  }

  lemma FoundInView(p: Plan, m: Mode, ops: Kernels, n: nat, memory: Memory, e: nat)
    requires Setting(p, m, ops) && n < |p.nodes| && Derived(p, m, n) && Aliases(p, m, n) && e < p.nodes[n].width
    requires |p.nodes[n].inputs| > 0 && p.nodes[n].inputs[0] < n
    requires Found(p, m, ops, memory, p.nodes[n].inputs[0], Offset(p.nodes[n]) + e)
    ensures Found(p, m, ops, memory, n, e)
  {
    hide KernelsOk, ModeOk, Contracts, Pure, Home;
    PureOfDerived(p, m, ops, n);
    AliasHome(p, m, n);
  }

  lemma TakenUntouched(p: Plan, m: Mode, n: nat, e: nat)
    requires Validated(p) && ModeOk(p, m) && n < |p.nodes| && Derived(p, m, n) && Untouched(p, m, n + 1, n, e)
    ensures |p.nodes[n].inputs| > 0 && p.nodes[n].inputs[0] < n
    ensures Untouched(p, m, n, p.nodes[n].inputs[0], Offset(p.nodes[n]) + e)
  {
    DerivedFacts(p, m, n);
  }

  /** A new storage disturbs no other. */
  lemma StepOthers(p: Plan, m: Mode, ops: Kernels, n: nat, memory: Memory, v: Rows, x: nat)
    requires Agrees(p, m, ops, n, memory) && n < |p.nodes| && !Aliases(p, m, n) && x < n
    requires p.nodes[n].kind == 0 ==> Wide(v, p.nodes[n].width)
    ensures Stored(p, m, n + 1, memory[n := v]) && ValueAgrees(p, m, ops, n + 1, memory[n := v], x)
  {
    hide KernelsOk, ModeOk, Contracts, Pure, Untouched, OnLine, SameColumn;
    assert ValueAgrees(p, m, ops, n, memory, x);
    var more := n + 1;
    forall e: nat | p.nodes[x].kind == 0 && e < p.nodes[x].width && Untouched(p, m, more, x, e)
      ensures Found(p, m, ops, memory[n := v], x, e)
    {
      UntouchedEarlier(p, m, n, x, e);
    }
  }

  lemma StepOwn(p: Plan, m: Mode, ops: Kernels, n: nat, memory: Memory)
    requires Agrees(p, m, ops, n, memory) && n < |p.nodes| && !Aliases(p, m, n)
    ensures Agrees(p, m, ops, n + 1, memory[n := Pure(p, m, ops, n)])
  {
    hide KernelsOk, ModeOk, Contracts, Pure, Untouched, OnLine, Found;
    var more, after := n + 1, memory[n := Pure(p, m, ops, n)];
    assert Stored(p, m, more, after);
    forall x: nat | x < more ensures ValueAgrees(p, m, ops, more, after, x) {
      if x < n {
        StepOthers(p, m, ops, n, memory, Pure(p, m, ops, n), x);
      } else {
        forall e: nat | p.nodes[n].kind == 0 && e < p.nodes[n].width && Untouched(p, m, more, n, e)
          ensures Found(p, m, ops, after, n, e)
        {
          FoundInOwn(p, m, ops, n, after, e);
        }
      }
    }
  }

  lemma FoundInOwn(p: Plan, m: Mode, ops: Kernels, n: nat, memory: Memory, e: nat)
    requires Setting(p, m, ops) && n < |p.nodes| && !Aliases(p, m, n) && p.nodes[n].kind == 0
    requires e < p.nodes[n].width && n in memory && memory[n] == Pure(p, m, ops, n)
    ensures Found(p, m, ops, memory, n, e)
  {
    hide KernelsOk, ModeOk, Contracts, Pure;
  }

  /** A copied slice is right wherever what it was copied from was. */
  lemma StepCopy(p: Plan, m: Mode, ops: Kernels, n: nat, memory: Memory)
    requires Agrees(p, m, ops, n, memory) && n < |p.nodes| && p.nodes[n].op == "slice" && !Aliases(p, m, n)
    ensures |p.nodes[n].inputs| > 0 && p.nodes[n].inputs[0] < n
    ensures var y, node := p.nodes[n].inputs[0], p.nodes[n]; var from := Home(p, m, y).start + Offset(node);
      && Home(p, m, y).root in memory && Reaches(memory[Home(p, m, y).root], from + node.width)
      && Agrees(p, m, ops, n + 1, memory[n := Columns(memory[Home(p, m, y).root], from, node.width)])
  {
    hide KernelsOk, ModeOk, Contracts, Pure, Untouched, OnLine, Found;
    DerivedFacts(p, m, n);
    var y, node := p.nodes[n].inputs[0], p.nodes[n];
    assert ValueAgrees(p, m, ops, n, memory, y);
    PureOfDerived(p, m, ops, n);
    var source, from := memory[Home(p, m, y).root], Home(p, m, y).start + Offset(node);
    var copy, more := Columns(source, from, node.width), n + 1;
    var after := memory[n := copy];
    assert Stored(p, m, more, after);
    forall x: nat | x < more ensures ValueAgrees(p, m, ops, more, after, x) {
      if x < n {
        StepOthers(p, m, ops, n, memory, copy, x);
      } else {
        forall e: nat | e < node.width && Untouched(p, m, more, n, e)
          ensures Found(p, m, ops, after, n, e)
        {
          TakenUntouched(p, m, n, e);
          FoundInCopy(p, m, ops, n, memory, e);
        }
      }
    }
  }

  lemma FoundInCopy(p: Plan, m: Mode, ops: Kernels, n: nat, memory: Memory, e: nat)
    requires Setting(p, m, ops) && n < |p.nodes| && p.nodes[n].op == "slice" && !Aliases(p, m, n)
    requires e < p.nodes[n].width && |p.nodes[n].inputs| > 0 && p.nodes[n].inputs[0] < n
    requires Found(p, m, ops, memory, p.nodes[n].inputs[0], Offset(p.nodes[n]) + e)
    requires var from := Home(p, m, p.nodes[n].inputs[0]);
      Reaches(memory[from.root], from.start + Offset(p.nodes[n]) + p.nodes[n].width)
    ensures var y, node := p.nodes[n].inputs[0], p.nodes[n]; var from := Home(p, m, y).start + Offset(node);
      Found(p, m, ops, memory[n := Columns(memory[Home(p, m, y).root], from, node.width)], n, e)
  {
    hide KernelsOk, ModeOk, Contracts, Pure;
    PureOfDerived(p, m, ops, n);
  }

  lemma Saved(memory: Memory, at: Place, v: Rows, width: nat)
    requires CanSave(memory, at, v) && Wide(v, width)
    ensures var was, after := memory[at.root], Save(memory, at, v);
      && after.Keys == memory.Keys && |after[at.root]| == |was|
      && (forall r | r in memory && r != at.root :: after[r] == memory[r])
      && (forall r | 0 <= r < |was| :: |after[at.root][r]| == |was[r]|)
      && (forall r, i | 0 <= r < |was| && 0 <= i < |was[r]| && !(at.start <= i < at.start + width) ::
            after[at.root][r][i] == was[r][i])
      && (forall r, e | 0 <= r < |was| && 0 <= e < width :: after[at.root][r][at.start + e] == v[r][e])
  {
  }

  /** The convolution's own value is there as a whole. */
  lemma SavedColumn(memory: Memory, at: Place, v: Rows, width: nat, e: nat)
    requires CanSave(memory, at, v) && Wide(v, width) && e < width
    ensures SameColumn(Save(memory, at, v)[at.root], at.start + e, v, e)
  {
    Saved(memory, at, v, width);
  }

  lemma KeptColumn(memory: Memory, at: Place, v: Rows, width: nat, root: nat, i: nat, b: Rows, j: nat)
    requires CanSave(memory, at, v) && Wide(v, width) && root in memory && SameColumn(memory[root], i, b, j)
    requires root != at.root || !(at.start <= i < at.start + width)
    ensures root in Save(memory, at, v) && SameColumn(Save(memory, at, v)[root], i, b, j)
  {
    Saved(memory, at, v, width);
  }

  lemma MissesLast(p: Plan, m: Mode, n: nat, x: nat, e: nat)
    requires Validated(p) && ModeOk(p, m) && x < n && Overwrites(p, n) && Untouched(p, m, n + 1, x, e)
    ensures !Covers(p, m, n, Home(p, m, x).root, Home(p, m, x).start + e)
  {
    if OnLine(p, m, x, n) {
      LineGoesDown(p, m, x, n);
    }
  }

  lemma FoundKept(p: Plan, m: Mode, ops: Kernels, n: nat, memory: Memory, v: Rows, x: nat, e: nat)
    requires Setting(p, m, ops) && Overwrites(p, n) && x < n && Found(p, m, ops, memory, x, e)
    requires CanSave(memory, Home(p, m, n), v) && Wide(v, p.nodes[n].width)
    requires Untouched(p, m, n + 1, x, e)
    ensures Found(p, m, ops, Save(memory, Home(p, m, n), v), x, e)
  {
    hide KernelsOk, ModeOk, Contracts, Pure, Untouched, OnLine, Save, Home, CanSave, SameColumn;
    MissesLast(p, m, n, x, e);
    var at := Home(p, m, x);
    KeptColumn(memory, Home(p, m, n), v, p.nodes[n].width, at.root, at.start + e, Pure(p, m, ops, x), e);
  }

  lemma OverwriteKeeps(p: Plan, m: Mode, ops: Kernels, n: nat, memory: Memory, v: Rows, x: nat)
    requires Agrees(p, m, ops, n, memory) && Overwrites(p, n) && x < n
    requires CanSave(memory, Home(p, m, n), v) && Wide(v, p.nodes[n].width)
    requires Stored(p, m, n + 1, Save(memory, Home(p, m, n), v))
    requires p.nodes[Home(p, m, n).root].kind == 0
    ensures ValueAgrees(p, m, ops, n + 1, Save(memory, Home(p, m, n), v), x)
  {
    hide KernelsOk, ModeOk, Contracts, Pure, Untouched, OnLine, Save, Home, CanSave, Found;
    var more, home := n + 1, Home(p, m, n);
    Saved(memory, home, v, p.nodes[n].width);
    assert ValueAgrees(p, m, ops, n, memory, x);
    forall e: nat | p.nodes[x].kind == 0 && e < p.nodes[x].width && Untouched(p, m, more, x, e)
      ensures Found(p, m, ops, Save(memory, home, v), x, e)
    {
      UntouchedEarlier(p, m, n, x, e);
      FoundKept(p, m, ops, n, memory, v, x, e);
    }
  }

  lemma StoredStays(p: Plan, m: Mode, n: nat, memory: Memory, v: Rows)
    requires Validated(p) && ModeOk(p, m) && Overwrites(p, n) && Stored(p, m, n, memory)
    requires CanSave(memory, Home(p, m, n), v) && Wide(v, p.nodes[n].width)
    ensures Stored(p, m, n + 1, Save(memory, Home(p, m, n), v))
  {
    hide ModeOk, Contracts, Save, Home;
    Saved(memory, Home(p, m, n), v, p.nodes[n].width);
  }

  lemma StepOverwrite(p: Plan, m: Mode, ops: Kernels, n: nat, memory: Memory)
    requires Agrees(p, m, ops, n, memory) && Overwrites(p, n)
    requires CanSave(memory, Home(p, m, n), Pure(p, m, ops, n))
    ensures Agrees(p, m, ops, n + 1, Save(memory, Home(p, m, n), Pure(p, m, ops, n)))
  {
    hide KernelsOk, ModeOk, Contracts, Pure, Untouched, OnLine, Save, Stored, CanSave, SameColumn, Home;
    DerivedFacts(p, m, n);
    var at, v, width := Home(p, m, n), Pure(p, m, ops, n), p.nodes[n].width;
    StoredStays(p, m, n, memory, v);
    Saved(memory, at, v, width);
    CanSaveRows(memory, at, v);
    var more, after := n + 1, Save(memory, at, v);
    forall x: nat | x < more ensures ValueAgrees(p, m, ops, more, after, x) {
      if x < n {
        OverwriteKeeps(p, m, ops, n, memory, v, x);
      } else {
        forall e: nat | e < width && Untouched(p, m, more, n, e) ensures Found(p, m, ops, after, n, e) {
          SavedColumn(memory, at, v, width, e);
        }
      }
    }
  }

  lemma CanSaveRows(memory: Memory, at: Place, v: Rows)
    requires CanSave(memory, at, v)
    ensures at.root in memory && |v| == |memory[at.root]|
  {
  }

  /** A convolution has room for its result: the rows and the width of its input. */
  lemma RoomForResult(p: Plan, m: Mode, ops: Kernels, n: nat, memory: Memory)
    requires Agrees(p, m, ops, n, memory) && Overwrites(p, n)
    ensures |p.nodes[n].inputs| == 1 && p.nodes[n].inputs[0] < n
    ensures |Pure(p, m, ops, n)| == |Pure(p, m, ops, p.nodes[n].inputs[0])| ==>
      CanSave(memory, Home(p, m, n), Pure(p, m, ops, n))
  {
    hide KernelsOk, ModeOk, Contracts, Pure, Untouched, OnLine;
    DerivedFacts(p, m, n);
    assert ValueAgrees(p, m, ops, n, memory, p.nodes[n].inputs[0]);
  }

  /** The home of an alias is found from the home of its input. */
  lemma AliasHome(p: Plan, m: Mode, n: nat)
    requires Validated(p) && ModeOk(p, m) && n < |p.nodes| && Aliases(p, m, n)
    ensures |p.nodes[n].inputs| > 0 && p.nodes[n].inputs[0] < n
    ensures var y := p.nodes[n].inputs[0];
      Home(p, m, n) == Place(Home(p, m, y).root, Home(p, m, y).start + Offset(p.nodes[n]))
  {
    DerivedFacts(p, m, n);
  }

  /**
   Who shares storage with its first input: the convolution and every node run as a view lie exactly on it, a slice of
   one token lies from its start on, and anything else has a storage of its own.
   */
  lemma SharesStorage(p: Plan, m: Mode, n: nat)
    requires Validated(p) && ModeOk(p, m) && n < |p.nodes|
    ensures
      if p.nodes[n].op == "mome_inplace" || n in m.views then
        p.nodes[n].inputs != [] && p.nodes[n].inputs[0] < n && Home(p, m, n) == Home(p, m, p.nodes[n].inputs[0])
      else if p.nodes[n].op == "slice" && m.single then
        && p.nodes[n].inputs != [] && p.nodes[n].inputs[0] < n && Integer(p.nodes[n], "start").Some?
        && Home(p, m, n).root == Home(p, m, p.nodes[n].inputs[0]).root
        && Home(p, m, n).start == Home(p, m, p.nodes[n].inputs[0]).start + Integer(p.nodes[n], "start").value
      else Home(p, m, n) == Place(n, 0)
  {
    if Aliases(p, m, n) {
      DerivedFacts(p, m, n);
      AliasHome(p, m, n);
    }
    ViewFacts(p, m, n);
  }

  /** The value of a slice, column by column. */
  lemma SliceIsStretch(p: Plan, m: Mode, ops: Kernels, n: nat, r: nat, e: nat)
    requires Setting(p, m, ops) && n < |p.nodes| && p.nodes[n].op == "slice"
    requires r < |Pure(p, m, ops, n)| && e < p.nodes[n].width
    ensures p.nodes[n].inputs != [] && p.nodes[n].inputs[0] < n && Integer(p.nodes[n], "start").Some?
    ensures var input := Pure(p, m, ops, p.nodes[n].inputs[0]);
      && |input| == |Pure(p, m, ops, n)| && |Pure(p, m, ops, n)[r]| == p.nodes[n].width
      && Integer(p.nodes[n], "start").value + e < |input[r]|
      && Pure(p, m, ops, n)[r][e] == input[r][Integer(p.nodes[n], "start").value + e]
  {
    DerivedFacts(p, m, n);
    hide KernelsOk, ModeOk, Contracts;
  }

  /** `places` is the loop's table of values: a value is a stretch of columns of some storage. */
  class Device {
    var memory: Memory

    constructor ()
      ensures memory == map[]
    {
      memory := map[];
    }

    method ReadInputs(p: Plan, m: Mode, ghost ops: Kernels, n: nat, places: seq<Place>) returns (ins: seq<Rows>)
      requires Agrees(p, m, ops, n, memory) && n < |p.nodes| && p.nodes[n].op != "slice"
      requires |places| == n && forall x | 0 <= x < n :: places[x] == Home(p, m, x)
      ensures |ins| == |p.nodes[n].inputs|
      ensures forall k | 0 <= k < |ins| ::
        p.nodes[n].inputs[k] < n && ins[k] == Operand(p, m, ops, p.nodes[n].inputs[k])
    {
      hide KernelsOk, ModeOk, Contracts, Stored, ValueAgrees, Home, Pure, Carried;
      ins := [];
      for k := 0 to |p.nodes[n].inputs|
        invariant |ins| == k
        invariant forall i | 0 <= i < k ::
          p.nodes[n].inputs[i] < n && ins[i] == Operand(p, m, ops, p.nodes[n].inputs[i])
      {
        OperandIsPure(p, m, ops, n, memory, k);
        var y := p.nodes[n].inputs[k];
        var own := if p.nodes[y].kind == 0 then Load(memory, places[y], p.nodes[y].width) else memory[places[y].root];
        if y in m.carriers {
          ReferenceIsPure(p, m, ops, n, memory, y);
          var x := Carried(p, m, y);
          own := own + Load(memory, places[x], p.nodes[x].width);
        }
        ins := ins + [own];
      }
    }

    /** Node `n`: a view is a new name, a convolution writes where its input lies, a slice of several rows is copied. */
    method RunNode(p: Plan, m: Mode, ops: Kernels, n: nat, places: seq<Place>) returns (at: Place)
      requires Agrees(p, m, ops, n, memory) && n < |p.nodes|
      requires |places| == n && forall x | 0 <= x < n :: places[x] == Home(p, m, x)
      modifies this
      ensures Agrees(p, m, ops, n + 1, memory) && at == Home(p, m, n)
    {
      hide KernelsOk, ModeOk, Contracts, Stored, ValueAgrees, Pure;
      var node := p.nodes[n];
      if node.op == "mome_inplace" {
        AliasHome(p, m, n);
        at := places[node.inputs[0]];
        var ins := ReadInputs(p, m, ops, n, places);
        PureOfKernel(p, m, ops, n, ins);
        InputIsTensor(p, m, ops, n);
        RoomForResult(p, m, ops, n, memory);
        StepOverwrite(p, m, ops, n, memory);
        memory := Save(memory, at, ops(n, ins));
      } else if Aliases(p, m, n) {
        AliasHome(p, m, n);
        at := Place(places[node.inputs[0]].root, places[node.inputs[0]].start + Offset(node));
        StepView(p, m, ops, n, memory);
      } else if node.op == "slice" {
        StepCopy(p, m, ops, n, memory);
        var from := places[node.inputs[0]];
        memory := memory[n := Columns(memory[from.root], from.start + Offset(node), node.width)];
        at := Place(n, 0);
      } else {
        var ins := ReadInputs(p, m, ops, n, places);
        PureOfKernel(p, m, ops, n, ins);
        StepOwn(p, m, ops, n, memory);
        memory := memory[n := ops(n, ins)];
        at := Place(n, 0);
      }
    }

    /** Main: in every mode the output read back from memory is the pure one. */
    method Run(p: Plan, m: Mode, ops: Kernels) returns (output: Rows)
      requires Setting(p, m, ops) && memory == map[]
      modifies this
      ensures output == Pure(p, m, ops, p.output)
    {
      hide KernelsOk, ModeOk, Contracts, Pure, Home, ValueAgrees;
      var places: seq<Place> := [];
      for n := 0 to |p.nodes|
        invariant Agrees(p, m, ops, n, memory)
        invariant |places| == n && forall x | 0 <= x < n :: places[x] == Home(p, m, x)
      {
        var at := RunNode(p, m, ops, n, places);
        places := places + [at];
      }
      OutputIsIntact(p, m);
      LoadIsPure(p, m, ops, |p.nodes|, memory, p.output);
      return Load(memory, places[p.output], p.nodes[p.output].width);
    }
  }

  lemma InputIsTensor(p: Plan, m: Mode, ops: Kernels, n: nat)
    requires Setting(p, m, ops) && Overwrites(p, n)
    ensures |p.nodes[n].inputs| == 1 && p.nodes[n].inputs[0] < |p.nodes|
    ensures Operand(p, m, ops, p.nodes[n].inputs[0]) == Pure(p, m, ops, p.nodes[n].inputs[0])
  {
    DerivedFacts(p, m, n);
    CarriersOpaque(p, m);
  }
}
