/** A whole load: a store with every parameter filled, or nothing kept. */
module LoadRun {
  import opened Requests
  import opened Counting
  import opened LoadPlan
  import opened Loader
  import Arith

  type Handles = seq<Option<nat>>

  datatype ParameterStore = ParameterStore(parameters: Handles, sourceBytes: nat, residentBytes: nat) {
    /** Looking a parameter up fails only for ids the plan never had. */
    function At(id: nat): Option<nat> {
      if id >= |parameters| then None else parameters[id]
    }
  }

  type Directory = map<string, Bytes>

  ghost predicate FilesOk(plan: Plan, dir: Directory) {
    forall i | 0 <= i < |plan.instructions| ::
      plan.instructions[i].shard in dir && Fits(plan.instructions[i], dir[plan.instructions[i].shard])
  }

  ghost predicate StagingOk(staging: nat) {
    staging != 0 && staging % 4 == 0 && staging <= MAX_STAGING
  }

  /** Everything that is checked before the first allocation. */
  ghost predicate Runnable(plan: Plan, dir: Directory, staging: nat, budget: nat) {
    ValidPlan(plan) && StagingOk(staging) && TotalBytes(plan.parameters) <= budget && FilesOk(plan, dir)
  }

  ghost predicate Sourced(plan: Plan, dir: Directory) {
    ValidPlan(plan) && FilesOk(plan, dir)
  }

  function Op(plan: Plan, i: nat): Slice
    requires i < |plan.instructions|
  {
    plan.instructions[i]
  }

  lemma InstructionLoadable(plan: Plan, dir: Directory, i: nat)
    requires Sourced(plan, dir) && i < |plan.instructions|
    ensures Op(plan, i).destination < |plan.parameters| && Op(plan, i).shard in dir
    ensures var p, file := plan.parameters[Op(plan, i).destination], dir[Op(plan, i).shard];
      && Loadable(Op(plan, i), p, file)
      && |Tensor(Op(plan, i), p, file)| == Width(p.dtype) * Extent(p.shape)
      && 0 < Op(plan, i).bytes <= Width(p.dtype) * Extent(p.shape)
  {
    hide SourceSpan, Fits, ShardOk, StringOk, Gather, Widen, ParametersOk;
    assert ShapesOk(plan) by { ValidShapes(plan); }
    var op := Op(plan, i);
    assert SliceOk(plan, op);
    var p := plan.parameters[op.destination];
    assert ShapeOk(p);
    ExtentGrows(p.shape, 0);
    Arith.MultipleMod(Extent(p.shape), Width(op.source));
  }

  ghost predicate ShapesOk(plan: Plan) {
    forall d | 0 <= d < |plan.parameters| :: ShapeOk(plan.parameters[d])
  }

  lemma ValidShapes(plan: Plan)
    requires ValidPlan(plan)
    ensures ShapesOk(plan)
  {
  }

  /** What parameter `Op(plan, i).destination` must hold. */
  ghost function Wanted(plan: Plan, dir: Directory, i: nat): Bytes
    requires Sourced(plan, dir) && i < |plan.instructions|
  {
    InstructionLoadable(plan, dir, i);
    Tensor(Op(plan, i), plan.parameters[Op(plan, i).destination], dir[Op(plan, i).shard])
  }

  ghost predicate CleanAt(plan: Plan, dir: Directory, i: nat)
    requires Sourced(plan, dir) && i < |plan.instructions|
  {
    InstructionLoadable(plan, dir, i);
    Clean(Op(plan, i), plan.parameters[Op(plan, i).destination], dir[Op(plan, i).shard])
  }

  /** The allocations held are those of `handles`, each its own, on top of what was there before. */
  ghost predicate Held(handles: Handles, blocks: map<nat, Bytes>, before: map<nat, Bytes>) {
    && (forall d | 0 <= d < |handles| && handles[d].Some? :: handles[d].value in blocks && handles[d].value !in before)
    && (forall d, e | 0 <= d < e < |handles| && handles[d].Some? && handles[e].Some? :: handles[d] != handles[e])
    && (forall h | h in before :: h in blocks && blocks[h] == before[h])
    && (forall h | h in blocks && h !in before :: Some(h) in handles)
  }

  /** The first `n` instructions have left the right bytes behind. */
  ghost predicate Filled(plan: Plan, dir: Directory, handles: Handles, blocks: map<nat, Bytes>, n: nat)
    requires Sourced(plan, dir) && n <= |plan.instructions| && |handles| == |plan.parameters|
  {
    forall i | 0 <= i < n :: FilledAt(plan, dir, handles, blocks, i)
  }

  ghost predicate FilledAt(plan: Plan, dir: Directory, handles: Handles, blocks: map<nat, Bytes>, i: nat)
    requires Sourced(plan, dir) && i < |plan.instructions| && |handles| == |plan.parameters|
  {
    InstructionLoadable(plan, dir, i);
    var h := handles[Op(plan, i).destination];
    h.Some? && h.value in blocks && blocks[h.value] == Wanted(plan, dir, i)
  }

  ghost predicate Assigned(plan: Plan, handles: Handles, n: nat) {
    && |handles| == |plan.parameters| && n <= |plan.instructions|
    && forall d | 0 <= d < |handles| :: handles[d].Some? <==> exists i | 0 <= i < n :: Op(plan, i).destination == d
  }

  /** Gives every held allocation back, each exactly once. */
  method ReleaseAll(device: Device, handles: Handles, ghost before: map<nat, Bytes>)
    requires device.Valid() && Held(handles, device.blocks, before)
    modifies device
    ensures device.Valid() && device.blocks == before
  {
    hide Held;
    ghost var rest := handles;
    for d := 0 to |handles|
      invariant device.Valid() && |rest| == |handles| && Held(rest, device.blocks, before)
      invariant forall e | 0 <= e < d :: rest[e] == None
      invariant forall e | d <= e < |handles| :: rest[e] == handles[e]
    {
      if handles[d].Some? {
        HeldRelease(rest, device.blocks, before, d);
        device.Release(handles[d].value);
        rest := rest[d := None];
      }
    }
    NothingHeld(rest, device.blocks, before);
  }

  lemma HeldRelease(handles: Handles, blocks: map<nat, Bytes>, before: map<nat, Bytes>, d: nat)
    requires Held(handles, blocks, before) && d < |handles| && handles[d].Some?
    ensures handles[d].value in blocks
    ensures Held(handles[d := None], blocks - {handles[d].value}, before)
  {
    var rest := handles[d := None];
    forall h | h in blocks - {handles[d].value} && h !in before ensures Some(h) in rest {
      var e :| 0 <= e < |handles| && handles[e] == Some(h);
      assert rest[e] == Some(h);
    }
  }

  lemma HeldMore(handles: Handles, blocks: map<nat, Bytes>, before: map<nat, Bytes>, d: nat, h: nat, data: Bytes)
    requires Held(handles, blocks, before) && d < |handles| && handles[d] == None && h !in blocks
    ensures Held(handles[d := Some(h)], blocks[h := data], before)
  {
    var more := handles[d := Some(h)];
    assert more[d] == Some(h);
    forall g | g in blocks && g !in before ensures Some(g) in more {
      var e :| 0 <= e < |handles| && handles[e] == Some(g);
      assert more[e] == Some(g);
    }
  }

  lemma NothingHeld(handles: Handles, blocks: map<nat, Bytes>, before: map<nat, Bytes>)
    requires Held(handles, blocks, before) && forall e | 0 <= e < |handles| :: handles[e] == None
    ensures blocks == before
  {
    assert blocks.Keys == before.Keys;
  }

  /** One instruction: allocate, load, and give the allocation back if anything goes wrong. */
  method LoadOne(device: Device, plan: Plan, dir: Directory, i: nat, staging: array<Byte>, verify: bool)
    returns (h: Option<nat>)
    requires device.Valid() && Sourced(plan, dir) && i < |plan.instructions| && 0 < staging.Length
    requires staging.Length % 4 == 0
    modifies device, staging
    ensures device.Valid()
    ensures h == None ==> device.blocks == old(device.blocks)
    ensures h.Some? ==> CleanAt(plan, dir, i) && h.value !in old(device.blocks) && h.value in device.blocks
    ensures h.Some? ==> device.blocks == old(device.blocks)[h.value := device.blocks[h.value]]
    ensures h.Some? && (verify || !device.garbles) ==> device.blocks[h.value] == Wanted(plan, dir, i)
    ensures !device.refuses && (!device.garbles || !verify) ==> (h.Some? <==> CleanAt(plan, dir, i))
  {
    hide Loadable, Fits, Clean, Tensor, ValidPlan, FilesOk;
    InstructionLoadable(plan, dir, i);
    var op := plan.instructions[i];
    var p := plan.parameters[op.destination];
    var bytes := SizeOf(plan, op.destination);
    h := device.Allocate(bytes);
    if h.Some? {
      var ok := LoadTensor(device, h.value, op, p, dir[op.shard], staging, verify);
      if !ok {
        device.Release(h.value);
        assert device.blocks == old(device.blocks);
        h := None;
      }
    }
  }

  method SizeOf(plan: Plan, id: nat) returns (bytes: nat)
    requires ValidPlan(plan) && id < |plan.parameters|
    ensures bytes == Width(plan.parameters[id].dtype) * Extent(plan.parameters[id].shape)
  {
    assert ShapeOk(plan.parameters[id]);
    var size := ParameterBytes(plan.parameters[id]);
    return size.value;
  }

  // ---------------------------------------------------------------- the sums

  function Sum(row: seq<int>): int {
    if row == [] then 0 else Sum(row[..|row| - 1]) + row[|row| - 1]
  }

  lemma {:induction false} SumRemove(row: seq<int>, k: nat)
    requires k < |row|
    ensures Sum(row) == Sum(row[..k] + row[k + 1..]) + row[k]
    decreases |row|
  {
    var n := |row| - 1;
    if k == n {
      assert row[..k] + row[k + 1..] == row[..n];
    } else {
      SumRemove(row[..n], k);
      var rest := row[..k] + row[k + 1..];
      assert rest[..|rest| - 1] == row[..n][..k] + row[..n][k + 1..];
    }
  }

  ghost function Weights(ps: seq<Parameter>): seq<int> {
    seq(|ps|, d requires 0 <= d < |ps| => Width(ps[d].dtype) * Extent(ps[d].shape))
  }

  lemma {:induction false} TotalIsSum(ps: seq<Parameter>)
    ensures TotalBytes(ps) == Sum(Weights(ps))
    decreases |ps|
  {
    if ps != [] {
      TotalIsSum(ps[..|ps| - 1]);
      assert Weights(ps)[..|ps| - 1] == Weights(ps[..|ps| - 1]);
    }
  }

  ghost function Picked(weights: seq<int>, row: seq<int>): seq<int>
    requires forall i | 0 <= i < |row| :: 0 <= row[i] < |weights|
  {
    seq(|row|, i requires 0 <= i < |row| => weights[row[i]])
  }

  /** Adding the weights up in the order of a permutation changes nothing. */
  lemma {:induction false} PermutedSum(weights: seq<int>, row: seq<int>)
    requires |row| == |weights| && Injective(row) && forall i | 0 <= i < |row| :: 0 <= row[i] < |weights|
    ensures Sum(Picked(weights, row)) == Sum(weights)
    decreases |row|
  {
    hide Injective;
    if row == [] {
      assert weights == [] && Picked(weights, row) == [];
    } else {
      var n := |row| - 1;
      PigeonHole(row);
      assert n in row;
      var k :| 0 <= k < |row| && row[k] == n;
      RestBelow(row, k);
      PermutedSum(weights[..n], row[..k] + row[k + 1..]);
      SumRemove(Picked(weights, row), k);
      PickedWithout(weights, row, k);
    }
  }

  lemma PickedWithout(weights: seq<int>, row: seq<int>, k: nat)
    requires 0 < |row| == |weights| && k < |row| && row[k] == |row| - 1 && Injective(row)
    requires forall i | 0 <= i < |row| :: 0 <= row[i] < |weights|
    ensures var rest := row[..k] + row[k + 1..];
      && (forall i | 0 <= i < |rest| :: 0 <= rest[i] < |row| - 1)
      && Picked(weights[..|row| - 1], rest) == Picked(weights, row)[..k] + Picked(weights, row)[k + 1..]
  {
    RestBelow(row, k);
    var rest, picked := row[..k] + row[k + 1..], Picked(weights, row);
    var less, want := Picked(weights[..|row| - 1], rest), picked[..k] + picked[k + 1..];
    forall i | 0 <= i < |rest| ensures less[i] == want[i] {
      assert rest[i] == row[if i < k then i else i + 1];
    }
  }

  lemma RestBelow(row: seq<int>, k: nat)
    requires k < |row| && row[k] == |row| - 1 && Injective(row) && forall i | 0 <= i < |row| :: 0 <= row[i] < |row|
    ensures var rest := row[..k] + row[k + 1..];
      Injective(rest) && forall i | 0 <= i < |rest| :: 0 <= rest[i] < |row| - 1
  {
    var rest := row[..k] + row[k + 1..];
    forall i | 0 <= i < |rest| ensures 0 <= rest[i] < |row| - 1 {
      var at := if i < k then i else i + 1;
      assert rest[i] == row[at] != row[k];
    }
  }

  /** Source and resident bytes of the first `n` instructions. */
  ghost function SourceBytes(plan: Plan, n: nat): int
    requires n <= |plan.instructions|
  {
    if n == 0 then 0 else SourceBytes(plan, n - 1) + Op(plan, n - 1).bytes
  }

  ghost function ResidentBytes(plan: Plan, n: nat): int
    requires ValidPlan(plan) && n <= |plan.instructions|
  {
    Sum(Picked(Weights(plan.parameters), Destinations(plan)[..n]))
  }

  /** Summed in plan order, the loaded sizes come to the total checked against the budget. */
  lemma ResidentIsTotal(plan: Plan)
    requires ValidPlan(plan)
    ensures ResidentBytes(plan, |plan.instructions|) == TotalBytes(plan.parameters)
  {
    hide SliceOk, ParametersOk;
    TotalIsSum(plan.parameters);
    var row := Destinations(plan);
    assert row[..|plan.instructions|] == row;
    PermutedSum(Weights(plan.parameters), row);
  }

  lemma ResidentMore(plan: Plan, n: nat)
    requires ValidPlan(plan) && n < |plan.instructions|
    ensures Op(plan, n).destination < |plan.parameters|
    ensures var p := plan.parameters[Op(plan, n).destination];
      ResidentBytes(plan, n + 1) == ResidentBytes(plan, n) + Width(p.dtype) * Extent(p.shape)
  {
    hide SliceOk, ParametersOk;
    var row, weights := Destinations(plan), Weights(plan.parameters);
    assert Picked(weights, row[..n + 1])[..n] == Picked(weights, row[..n]);
  }

  // ---------------------------------------------------------------- the load

  lemma Untaken(plan: Plan, handles: Handles, i: nat)
    requires ValidPlan(plan) && i < |plan.instructions| && Assigned(plan, handles, i)
    ensures Op(plan, i).destination < |handles| && handles[Op(plan, i).destination] == None
  {
    hide SliceOk, ParametersOk;
  }

  lemma AssignedMore(plan: Plan, handles: Handles, i: nat, h: nat)
    requires ValidPlan(plan) && i < |plan.instructions| && Assigned(plan, handles, i)
    requires Op(plan, i).destination < |handles|
    ensures Assigned(plan, handles[Op(plan, i).destination := Some(h)], i + 1)
  {
    hide SliceOk, ParametersOk;
    var d, m, more := Op(plan, i).destination, i + 1, handles[Op(plan, i).destination := Some(h)];
    forall e | 0 <= e < |more| ensures more[e].Some? <==> exists j | 0 <= j < m :: Op(plan, j).destination == e {
      if e == d { assert Op(plan, i).destination == e; }
    }
  }

  lemma FilledMore(plan: Plan, dir: Directory, handles: Handles, blocks: map<nat, Bytes>, before: map<nat, Bytes>,
                   i: nat, h: nat, data: Bytes)
    requires Sourced(plan, dir) && i < |plan.instructions| && Assigned(plan, handles, i) && h !in blocks
    requires Held(handles, blocks, before) && Filled(plan, dir, handles, blocks, i) && data == Wanted(plan, dir, i)
    requires Op(plan, i).destination < |handles|
    ensures Filled(plan, dir, handles[Op(plan, i).destination := Some(h)], blocks[h := data], i + 1)
  {
    hide ValidPlan, FilesOk, Held, Wanted;
    var m, more, after := i + 1, handles[Op(plan, i).destination := Some(h)], blocks[h := data];
    forall j | 0 <= j < m ensures FilledAt(plan, dir, more, after, j) {
      InstructionLoadable(plan, dir, j);
      if j < i {
        assert FilledAt(plan, dir, handles, blocks, j);
        Untaken(plan, handles, i);
      }
    }
  }

  /** Every parameter of a finished load has its allocation. */
  lemma AllAssigned(plan: Plan, handles: Handles, d: nat)
    requires ValidPlan(plan) && Assigned(plan, handles, |plan.instructions|) && d < |plan.parameters|
    ensures handles[d].Some?
  {
    hide SliceOk, ParametersOk;
    EveryParameterProduced(plan, d);
    var i :| Produces(plan, i, d);
    assert Op(plan, i).destination == d;
  }

  /** The store that a finished load publishes. */
  ghost predicate Published(plan: Plan, dir: Directory, store: ParameterStore, blocks: map<nat, Bytes>,
                            before: map<nat, Bytes>)
  {
    && Sourced(plan, dir) && |store.parameters| == |plan.parameters|
    && Held(store.parameters, blocks, before)
    && (forall id: nat :: store.At(id).Some? <==> id < |plan.parameters|)
    && store.residentBytes == TotalBytes(plan.parameters) && store.sourceBytes == SourceBytes(plan, |plan.instructions|)
  }

  method CheckFiles(plan: Plan, dir: Directory) returns (ok: bool)
    ensures ok <==> FilesOk(plan, dir)
  {
    for i := 0 to |plan.instructions|
      invariant forall j | 0 <= j < i ::
        plan.instructions[j].shard in dir && Fits(plan.instructions[j], dir[plan.instructions[j].shard])
    {
      var op := plan.instructions[i];
      if op.shard !in dir || !Fits(op, dir[op.shard]) {
        return false;
      }
    }
    return true;
  }

  /** Main: the files are in order if and only if every byte the plan names is there to be read. */
  lemma FilesOkIff(plan: Plan, dir: Directory)
    requires ValidPlan(plan)
    ensures FilesOk(plan, dir) <==> forall i: nat | i < |plan.instructions| :: BytesThere(plan, dir, i)
  {
    hide Fits, SourceSpan;
    forall i: nat | i < |plan.instructions|
      ensures BytesThere(plan, dir, i) <==>
        plan.instructions[i].shard in dir && Fits(plan.instructions[i], dir[plan.instructions[i].shard])
    {
      BytesThereIff(plan, dir, i);
    }
  }

  ghost predicate BytesThere(plan: Plan, dir: Directory, i: nat)
    requires i < |plan.instructions|
  {
    && Op(plan, i).shard in dir
    && forall k: nat | k < Op(plan, i).bytes :: SourceAt(Op(plan, i), k) < |dir[Op(plan, i).shard]|
  }

  lemma BytesThereIff(plan: Plan, dir: Directory, i: nat)
    requires ValidPlan(plan) && i < |plan.instructions|
    ensures BytesThere(plan, dir, i) <==> Op(plan, i).shard in dir && Fits(Op(plan, i), dir[Op(plan, i).shard])
  {
    hide Fits, SourceSpan, SourceAt, ShardOk, ParametersOk;
    ValidShapes(plan);
    var op := Op(plan, i);
    assert SliceOk(plan, op);
    var shape := plan.parameters[op.destination].shape;
    assert ShapeOk(plan.parameters[op.destination]);
    ExtentGrows(shape, 0);
    Arith.MulMono(1, Extent(shape), Width(op.source));
    if op.shard in dir {
      FitsIff(op, dir[op.shard]);
    }
  }

  method Resident(plan: Plan) returns (total: nat)
    requires ValidPlan(plan)
    ensures total == TotalBytes(plan.parameters)
  {
    total := 0;
    for i := 0 to |plan.parameters|
      invariant total == TotalBytes(plan.parameters[..i])
    {
      var bytes := SizeOf(plan, i);
      assert plan.parameters[..i + 1][..i] == plan.parameters[..i];
      total := total + bytes;
    }
    assert plan.parameters[..|plan.parameters|] == plan.parameters;
  }

  ghost predicate AllClean(plan: Plan, dir: Directory)
    requires Sourced(plan, dir)
  {
    forall i: nat | i < |plan.instructions| :: CleanAt(plan, dir, i)
  }

  /**
   * Main: for every legal staging size, a store is published with every parameter equal to its direct
   * gather and nothing else allocated, or the device is left as it was, whatever was refused on the way. Only a
   * device that garbles uploads without a word needs the verification for that. Where nothing is refused and no
   * verification can find a garbled upload, a load succeeds exactly when its plan, files and values are in order.
   */
  method Execute(plan: Plan, dir: Directory, device: Device, stagingBytes: nat, budget: nat, verify: bool)
      returns (r: Option<ParameterStore>)
    requires device.Valid()
    modifies device
    ensures device.Valid()
    ensures r == None ==> device.blocks == old(device.blocks)
    ensures r.Some? ==> Runnable(plan, dir, stagingBytes, budget) && AllClean(plan, dir)
    ensures r.Some? ==> Published(plan, dir, r.value, device.blocks, old(device.blocks))
    ensures r.Some? && (verify || !device.garbles) ==>
      Filled(plan, dir, r.value.parameters, device.blocks, |plan.instructions|)
    ensures !device.refuses && (!device.garbles || !verify) ==>
      (r.Some? <==> Runnable(plan, dir, stagingBytes, budget) && AllClean(plan, dir))
  {
    hide ValidPlan, FilesOk, Held, Filled, Assigned, CleanAt, Wanted, TotalBytes;
    var ok := Validate(plan);
    if !ok || stagingBytes == 0 || stagingBytes % 4 != 0 || stagingBytes > 64 * 1024 * 1024 {
      return None;
    }
    var total := Resident(plan);
    if total > budget {
      return None;
    }
    ok := CheckFiles(plan, dir);
    if !ok {
      return None;
    }
    var staging := new Byte[stagingBytes];
    var handles: Handles := seq(|plan.parameters|, d => None);
    var source, resident := 0, 0;
    LoadStart(plan, dir, handles, device.blocks);
    for i := 0 to |plan.instructions|
      invariant device.Valid() && |handles| == |plan.parameters|
      invariant Held(handles, device.blocks, old(device.blocks)) && Assigned(plan, handles, i)
      invariant verify || !device.garbles ==> Filled(plan, dir, handles, device.blocks, i)
      invariant forall j: nat | j < i :: CleanAt(plan, dir, j)
      invariant source == SourceBytes(plan, i) && resident == ResidentBytes(plan, i)
    {
      var d := plan.instructions[i].destination;
      Untaken(plan, handles, i);
      ghost var blocks := device.blocks;
      var h := LoadOne(device, plan, dir, i, staging, verify);
      if h == None {
        ReleaseAll(device, handles, old(device.blocks));
        return None;
      }
      ResidentMore(plan, i);
      var size := SizeOf(plan, d);
      source, resident := source + plan.instructions[i].bytes, resident + size;
      HeldMore(handles, blocks, old(device.blocks), d, h.value, device.blocks[h.value]);
      AssignedMore(plan, handles, i, h.value);
      if verify || !device.garbles {
        FilledMore(plan, dir, handles, blocks, old(device.blocks), i, h.value, device.blocks[h.value]);
      }
      handles := handles[d := h];
    }
    ResidentIsTotal(plan);
    SourceNonNegative(plan, |plan.instructions|);
    forall d: nat | d < |handles| ensures handles[d].Some? {
      AllAssigned(plan, handles, d);
    }
    return Some(ParameterStore(handles, source, resident));
  }

  lemma LoadStart(plan: Plan, dir: Directory, handles: Handles, blocks: map<nat, Bytes>)
    requires Sourced(plan, dir) && |handles| == |plan.parameters| && forall d | 0 <= d < |handles| :: handles[d] == None
    ensures Held(handles, blocks, blocks) && Assigned(plan, handles, 0) && Filled(plan, dir, handles, blocks, 0)
    ensures ResidentBytes(plan, 0) == 0
  {
  }

  /** No 64-bit counter of the store can overflow: what is read never exceeds what is kept. */
  lemma {:induction false} SourceNonNegative(plan: Plan, n: nat)
    requires ValidPlan(plan) && n <= |plan.instructions|
    ensures 0 <= SourceBytes(plan, n) <= ResidentBytes(plan, n)
    decreases n
  {
    hide ParametersOk;
    if n > 0 {
      SourceNonNegative(plan, n - 1);
      ResidentMore(plan, n - 1);
      assert SliceOk(plan, Op(plan, n - 1));
      NarrowerSource(plan, n - 1);
    }
  }

  lemma NarrowerSource(plan: Plan, i: nat)
    requires ValidPlan(plan) && i < |plan.instructions|
    ensures Op(plan, i).destination < |plan.parameters|
    ensures var p := plan.parameters[Op(plan, i).destination]; Op(plan, i).bytes <= Width(p.dtype) * Extent(p.shape)
  {
    assert SliceOk(plan, Op(plan, i));
    var p := plan.parameters[Op(plan, i).destination];
    assert ShapeOk(p);
    ExtentGrows(p.shape, 0);
  }
}
