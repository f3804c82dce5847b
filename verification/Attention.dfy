/** Causal candidate tables: the kernel that writes them and the host check that admits them. */
module Attention {
  import opened Arith
  import opened Counting
  import SequenceBatch

  /** Rows `start..end` of one sequence; the last row of a sequence of length `length` sees all of it. */
  function Causal(start: int, end: int, length: int, t: int): int {
    length - (end - start) + t - start + 1
  }

  /** `required` distinct causal candidates, then -1 padding. */
  ghost predicate RowAccepted(row: seq<int>, causal: int, topk: int)
    requires |row| == topk
  {
    var required := if causal < topk then causal else topk;
    && (forall j | 0 <= j < required && j < topk :: 0 <= row[j] < causal)
    && (forall i, j | 0 <= i < j < required && j < topk :: row[i] != row[j])
    && (forall j | 0 <= j < topk && required <= j :: row[j] == -1)
  }

  ghost predicate Dimensions(ends: seq<int>, lengths: seq<int>, indices: seq<int>, topk: int) {
    ends != [] && |ends| == |lengths| && topk > 0 && ends[|ends| - 1] > 0 && ends[|ends| - 1] * topk == |indices|
  }

  function Start(ends: seq<int>, n: nat): int
    requires n <= |ends|
  {
    if n == 0 then 0 else ends[n - 1]
  }

  ghost predicate SequenceAccepted(ends: seq<int>, lengths: seq<int>, indices: seq<int>, topk: int, n: nat)
    requires n < |ends| == |lengths| && topk > 0
  {
    && Start(ends, n) <= ends[n] && lengths[n] >= ends[n] - Start(ends, n)
    && (forall t | Start(ends, n) <= t < ends[n] ::
          RowInTable(indices, topk, t, Causal(Start(ends, n), ends[n], lengths[n], t)))
  }

  ghost predicate RowInTable(indices: seq<int>, topk: int, t: int, causal: int)
    requires topk > 0
  {
    && t >= 0 && 0 <= t * topk <= (t + 1) * topk <= |indices|
    && RowAccepted(indices[t * topk..(t + 1) * topk], causal, topk)
  }

  /** The tables the attention operator may be given. */
  ghost predicate Accepted(ends: seq<int>, lengths: seq<int>, indices: seq<int>, topk: int) {
    && Dimensions(ends, lengths, indices, topk)
    && (forall n | 0 <= n < |ends| :: SequenceAccepted(ends, lengths, indices, topk, n))
  }

  /** `Overrun` is a read behind the table: no exception is raised there. */
  datatype Verdict = Pass | Reject | Overrun

  /** Everything before sequence `n` is in order, and `n` ends behind the table after filling it. */
  ghost predicate LeavesAt(ends: seq<int>, lengths: seq<int>, indices: seq<int>, topk: int, n: nat)
    requires n < |ends| == |lengths| && topk > 0
  {
    && (forall k | 0 <= k < n :: SequenceAccepted(ends, lengths, indices, topk, k))
    && Start(ends, n) <= ends[n] && lengths[n] >= ends[n] - Start(ends, n) && ends[n] > ends[|ends| - 1]
    && (forall t | Start(ends, n) <= t < ends[|ends| - 1] ::
          RowInTable(indices, topk, t, Causal(Start(ends, n), ends[n], lengths[n], t)))
  }

  ghost predicate Leaves(ends: seq<int>, lengths: seq<int>, indices: seq<int>, topk: int) {
    Dimensions(ends, lengths, indices, topk) && exists n | 0 <= n < |ends| :: LeavesAt(ends, lengths, indices, topk, n)
  }

  lemma RowBounds(t: int, rows: int, topk: int)
    requires 0 <= t && topk > 0
    ensures 0 <= t * topk && (t + 1) * topk == t * topk + topk
    ensures t < rows <==> (t + 1) * topk <= rows * topk
    ensures t >= rows ==> t * topk >= rows * topk
  {
    MulPos(t, topk);
    Distribute(t, 1, topk);
    if t < rows {
      MulMono(t + 1, rows, topk);
    } else {
      MulMono(rows, t, topk);
    }
  }

  method ValidateRow(row: seq<int>, causal: int, topk: int) returns (ok: bool)
    requires |row| == topk && causal > 0 && topk > 0
    ensures ok <==> RowAccepted(row, causal, topk)
  {
    var required := if causal < topk then causal else topk;
    var seen := {};
    for j := 0 to topk
      invariant forall i | 0 <= i < j && i < required :: 0 <= row[i] < causal && row[i] in seen
      invariant forall x | x in seen :: exists i | 0 <= i < j && i < required :: row[i] == x
      invariant forall i, k | 0 <= i < k < j && k < required :: row[i] != row[k]
      invariant forall i | required <= i < j :: row[i] == -1
    {
      var id := row[j];
      if j < required {
        if id < 0 || id >= causal || id in seen {
          return false;
        }
        seen := seen + {id};
      } else if id != -1 {
        return false;
      }
    }
    return true;
  }

  /** The host check, on whatever integers it is handed. */
  method Validate(ends: seq<int>, lengths: seq<int>, indices: seq<int>, topk: int) returns (verdict: Verdict)
    ensures verdict == Pass <==> Accepted(ends, lengths, indices, topk)
    ensures verdict == Overrun <==> Leaves(ends, lengths, indices, topk)
  {
    if ends == [] || |ends| != |lengths| || topk <= 0 || ends[|ends| - 1] <= 0
       || ends[|ends| - 1] * topk != |indices| {
      return Reject;
    }
    var start, last := 0, ends[|ends| - 1];
    for n := 0 to |ends|
      invariant start == Start(ends, n) >= 0
      invariant forall k | 0 <= k < n :: SequenceAccepted(ends, lengths, indices, topk, k)
    {
      var count := ends[n] - start;
      if count < 0 || lengths[n] < count {
        StaysInside(ends, lengths, indices, topk, n);
        return Reject;
      }
      var t := start;
      while t < ends[n]
        invariant start <= t <= ends[n]
        invariant forall u | start <= u < t :: RowInTable(indices, topk, u, Causal(start, ends[n], lengths[n], u))
      {
        var causal := lengths[n] - count + t - start + 1;
        RowBounds(t, last, topk);
        if t >= last {
          assert !RowInTable(indices, topk, t, Causal(start, ends[n], lengths[n], t));
          assert !SequenceAccepted(ends, lengths, indices, topk, n);
          assert LeavesAt(ends, lengths, indices, topk, n);
          return Overrun;
        }
        var ok := ValidateRow(indices[t * topk..(t + 1) * topk], causal, topk);
        if !ok {
          assert !RowInTable(indices, topk, t, Causal(start, ends[n], lengths[n], t));
          StaysInside(ends, lengths, indices, topk, n);
          return Reject;
        }
        t := t + 1;
      }
      start := ends[n];
    }
    AcceptedStays(ends, lengths, indices, topk);
    return Pass;
  }

  /** A sequence that is accepted ends inside the table. */
  lemma EndsInside(ends: seq<int>, lengths: seq<int>, indices: seq<int>, topk: int, n: nat)
    requires Dimensions(ends, lengths, indices, topk) && n < |ends|
    requires SequenceAccepted(ends, lengths, indices, topk, n) && Start(ends, n) <= ends[|ends| - 1]
    ensures ends[n] <= ends[|ends| - 1]
  {
    var last := ends[|ends| - 1];
    if ends[n] > last {
      assert RowInTable(indices, topk, last, Causal(Start(ends, n), ends[n], lengths[n], last));
      MulMono(last + 1, last + 1, topk);
      Distribute(last, 1, topk);
    }
  }

  lemma {:induction false} PrefixInside(ends: seq<int>, lengths: seq<int>, indices: seq<int>, topk: int, n: nat)
    requires Dimensions(ends, lengths, indices, topk) && n <= |ends|
    requires forall k | 0 <= k < n :: SequenceAccepted(ends, lengths, indices, topk, k)
    ensures Start(ends, n) <= ends[|ends| - 1]
    decreases n
  {
    if n > 0 {
      PrefixInside(ends, lengths, indices, topk, n - 1);
      EndsInside(ends, lengths, indices, topk, n - 1);
    }
  }

  lemma AcceptedStays(ends: seq<int>, lengths: seq<int>, indices: seq<int>, topk: int)
    requires Accepted(ends, lengths, indices, topk)
    ensures !Leaves(ends, lengths, indices, topk)
  {
    if Leaves(ends, lengths, indices, topk) {
      var n :| 0 <= n < |ends| && LeavesAt(ends, lengths, indices, topk, n);
      PrefixInside(ends, lengths, indices, topk, n);
      EndsInside(ends, lengths, indices, topk, n);
    }
  }

  /** Once a sequence is found wanting inside the table, the check has ended there. */
  lemma StaysInside(ends: seq<int>, lengths: seq<int>, indices: seq<int>, topk: int, n: nat)
    requires Dimensions(ends, lengths, indices, topk) && n < |ends|
    requires forall k | 0 <= k < n :: SequenceAccepted(ends, lengths, indices, topk, k)
    requires
      || Start(ends, n) > ends[n] || lengths[n] < ends[n] - Start(ends, n)
      || exists t | Start(ends, n) <= t < ends[n] && t < ends[|ends| - 1] ::
           !RowInTable(indices, topk, t, Causal(Start(ends, n), ends[n], lengths[n], t))
    ensures !SequenceAccepted(ends, lengths, indices, topk, n) && !Leaves(ends, lengths, indices, topk)
  {
    if Leaves(ends, lengths, indices, topk) {
      var m :| 0 <= m < |ends| && LeavesAt(ends, lengths, indices, topk, m);
      if m < n {
        PrefixInside(ends, lengths, indices, topk, m);
        EndsInside(ends, lengths, indices, topk, m);
      }
    }
  }

  /** A query end larger than the last one, reached without an end that descends on the way. */
  ghost predicate ClimbsPastLast(ends: seq<int>) {
    exists m | 0 <= m < |ends| :: ends[m] > ends[|ends| - 1] && Climbs(ends, m)
  }

  ghost predicate Climbs(ends: seq<int>, m: nat)
    requires m < |ends|
  {
    forall k | 0 <= k <= m :: Start(ends, k) <= ends[k]
  }

  /**
   The check stays inside the table for every choice of lengths and candidates exactly when the query
   ends do not climb past the last one. Ends that ascend, as every packed batch has them, never do.
   */
  lemma InsideIff(ends: seq<int>, topk: int)
    requires ends != [] && topk > 0 && ends[|ends| - 1] > 0
    ensures (exists lengths, indices :: Leaves(ends, lengths, indices, topk)) <==> ClimbsPastLast(ends)
  {
    if lengths, indices :| Leaves(ends, lengths, indices, topk) {
      LeavesClimbs(ends, lengths, indices, topk);
    }
    if ClimbsPastLast(ends) {
      ClimbingLeaves(ends, topk);
    }
  }

  lemma LeavesClimbs(ends: seq<int>, lengths: seq<int>, indices: seq<int>, topk: int)
    requires Leaves(ends, lengths, indices, topk)
    ensures ClimbsPastLast(ends)
  {
    hide RowInTable;
    var n :| 0 <= n < |ends| && LeavesAt(ends, lengths, indices, topk, n);
    forall k | 0 <= k <= n ensures Start(ends, k) <= ends[k] {
      assert k < n ==> SequenceAccepted(ends, lengths, indices, topk, k);
    }
    assert Climbs(ends, n);
  }

  lemma ClimbingLeaves(ends: seq<int>, topk: int)
    requires ends != [] && topk > 0 && ends[|ends| - 1] > 0 && ClimbsPastLast(ends)
    ensures Leaves(ends, ends, Ramps(ends[|ends| - 1], topk), topk)
  {
    hide RowInTable, Ramps;
    var m :| 0 <= m < |ends| && ends[m] > ends[|ends| - 1] && Climbs(ends, m);
    var n := FirstPast(ends, m);
    var indices := Ramps(ends[|ends| - 1], topk);
    forall k | 0 <= k < n ensures SequenceAccepted(ends, ends, indices, topk, k) {
      StartClimbs(ends, k);
      RampRows(ends, topk, k);
    }
    StartClimbs(ends, n);
    RampRows(ends, topk, n);
    assert LeavesAt(ends, ends, indices, topk, n);
  }

  lemma RampRows(ends: seq<int>, topk: int, n: nat)
    requires ends != [] && topk > 0 && ends[|ends| - 1] > 0 && n < |ends| && 0 <= Start(ends, n)
    ensures forall t | Start(ends, n) <= t < ends[n] && t < ends[|ends| - 1] ::
      RowInTable(Ramps(ends[|ends| - 1], topk), topk, t, Causal(Start(ends, n), ends[n], ends[n], t))
  {
    hide RowInTable, Ramps;
    forall t | Start(ends, n) <= t < ends[n] && t < ends[|ends| - 1]
      ensures RowInTable(Ramps(ends[|ends| - 1], topk), topk, t, Causal(Start(ends, n), ends[n], ends[n], t))
    {
      RampAccepted(ends[|ends| - 1], topk, t);
    }
  }

  lemma {:induction false} StartClimbs(ends: seq<int>, n: nat)
    requires n < |ends| && forall k | 0 <= k <= n :: Start(ends, k) <= ends[k]
    ensures 0 <= Start(ends, n)
    decreases n
  {
    if n > 0 {
      StartClimbs(ends, n - 1);
    }
  }

  lemma FirstPast(ends: seq<int>, m: nat) returns (n: nat)
    requires m < |ends| && ends[m] > ends[|ends| - 1]
    ensures n <= m && ends[n] > ends[|ends| - 1] && forall k | 0 <= k < n :: ends[k] <= ends[|ends| - 1]
    decreases m
  {
    if k :| 0 <= k < m && ends[k] > ends[|ends| - 1] {
      n := FirstPast(ends, k);
    } else {
      n := m;
    }
  }

  /** The table whose row `t` lists the candidates 0 to `t`. */
  function Ramps(rows: nat, topk: nat): (table: seq<int>)
    requires topk > 0
    ensures |table| == rows * topk
  {
    MulPos(rows, topk);
    seq(rows * topk, i requires 0 <= i => if i % topk <= i / topk then i % topk else -1)
  }

  lemma RampAccepted(rows: nat, topk: nat, t: nat)
    requires topk > 0 && t < rows
    ensures RowInTable(Ramps(rows, topk), topk, t, t + 1)
  {
    RowBounds(t, rows, topk);
    var row := Ramps(rows, topk)[t * topk..(t + 1) * topk];
    forall j | 0 <= j < topk ensures row[j] == if j <= t then j else -1 {
      DivUnique(t * topk + j, topk, t, j);
    }
  }

  /** A row whose causal length fits in the table is dense causal attention: every earlier position, once. */
  lemma FittingRowIsDense(row: seq<int>, causal: nat, topk: nat)
    requires |row| == topk && causal <= topk && RowAccepted(row, causal, topk)
    ensures forall x | 0 <= x < causal :: x in row[..causal]
    ensures forall i, j | 0 <= i < j < causal :: row[i] != row[j]
    ensures forall j | causal <= j < topk :: row[j] == -1
  {
    PigeonHole(row[..causal]);
  }

  // ------------------------------------------------------------ the kernel

  /** Rows are dealt to blocks in runs of 64. */
  ghost predicate WrittenBy(row: nat, block: nat, blocks: nat) {
    blocks > 0 && row / 64 % blocks == block
  }

  /** Every row belongs to exactly one block, for any number of blocks. */
  lemma OneBlockPerRow(row: nat, blocks: nat)
    requires blocks > 0
    ensures exists block: nat :: block < blocks && WrittenBy(row, block, blocks)
    ensures forall a: nat, b: nat | WrittenBy(row, a, blocks) && WrittenBy(row, b, blocks) :: a == b
  {
    DivMod(row / 64, blocks);
    assert WrittenBy(row, row / 64 % blocks, blocks);
  }

  /** One row of causal candidates: positions 0 to `position`, then padding. */
  function KernelRow(position: nat, capacity: nat): (row: seq<int>)
    ensures |row| == capacity
    ensures forall i | 0 <= i < capacity :: row[i] == if i <= position then i else -1
  {
    seq(capacity, i requires 0 <= i => if i <= position then i else -1)
  }

  function RowOf(table: seq<int>, capacity: nat, rows: nat, row: nat): (r: seq<int>)
    requires row < rows && |table| == rows * capacity && capacity > 0
    ensures |r| == capacity
  {
    RowBounds(row, rows, capacity);
    table[row * capacity..(row + 1) * capacity]
  }

  lemma RowsApart(r: nat, s: nat, capacity: nat)
    requires r != s && capacity > 0
    ensures (r + 1) * capacity <= s * capacity || (s + 1) * capacity <= r * capacity
  {
    if r < s {
      MulMono(r + 1, s, capacity);
    } else {
      MulMono(s + 1, r, capacity);
    }
  }

  class Table {
    const positions: seq<nat>
    const capacity: nat
    const indices: array<int>
    const lengths: array<int>

    constructor (positions: seq<nat>, capacity: nat)
      requires capacity > 0
      ensures Valid() && this.positions == positions && this.capacity == capacity
    {
      this.positions := positions;
      this.capacity := capacity;
      MulPos(|positions|, capacity);
      indices := new int[|positions| * capacity];
      lengths := new int[|positions|];
      new;
      assert indices != lengths;
    }

    ghost predicate Valid() {
      indices.Length == |positions| * capacity && lengths.Length == |positions| && indices != lengths && capacity > 0
    }

    ghost predicate Written(row: nat)
      requires Valid() && row < |positions|
      reads indices, lengths
    {
      RowOf(indices[..], capacity, |positions|, row) == KernelRow(positions[row], capacity)
      && lengths[row] == positions[row] + 1
    }

    twostate predicate Kept(row: nat)
      requires Valid() && row < |positions|
      reads indices, lengths
    {
      RowOf(indices[..], capacity, |positions|, row) == old(RowOf(indices[..], capacity, |positions|, row))
      && lengths[row] == old(lengths[row])
    }

    method WriteRow(row: nat)
      requires Valid() && row < |positions|
      modifies indices, lengths
      ensures Written(row)
      ensures forall s: nat | s < |positions| && s != row :: Kept(s)
    {
      var position := positions[row];
      lengths[row] := position + 1;
      var base := row * capacity;
      RowBounds(row, |positions|, capacity);
      var i := 0;
      while i < capacity
        invariant 0 <= i <= capacity && lengths[row] == position + 1
        invariant forall s | 0 <= s < |positions| && s != row :: lengths[s] == old(lengths[s])
        invariant forall j | 0 <= j < i :: indices[base + j] == KernelRow(position, capacity)[j]
        invariant forall c | 0 <= c < indices.Length && !(base <= c < base + capacity) :: indices[c] == old(indices[c])
      {
        indices[base + i] := if i <= position then i else -1;
        i := i + 1;
      }
      forall s: nat | s < |positions| && s != row ensures Kept(s) {
        RowsApart(row, s, capacity);
        RowBounds(s, |positions|, capacity);
      }
    }

    /** One block's launch; blocks of one grid may run in any order. */
    method RunBlock(block: nat, blocks: nat)
      requires Valid() && block < blocks
      modifies indices, lengths
      ensures forall row: nat | row < |positions| ::
        if WrittenBy(row, block, blocks) then Written(row) else Kept(row)
    {
      var rows, begin := |positions|, block * 64;
      ghost var turn := 0;
      while begin < rows
        invariant begin == (turn * blocks + block) * 64 && turn >= 0
        invariant forall row: nat | row < rows ::
          if WrittenBy(row, block, blocks) && row < begin then Written(row) else Kept(row)
        decreases rows - begin
      {
        var end := if begin + 64 < rows then begin + 64 else rows;
        var row := begin;
        while row < end
          invariant begin <= row <= end
          invariant forall r: nat | r < rows ::
            if WrittenBy(r, block, blocks) && r < row then Written(r) else Kept(r)
        {
          assert WrittenBy(row, block, blocks) by {
            assert row / 64 == turn * blocks + block;
            DivUnique(turn * blocks + block, blocks, turn, block);
          }
          label before:
          WriteRow(row);
          forall r: nat | r < rows
            ensures if WrittenBy(r, block, blocks) && r < row + 1 then Written(r) else Kept(r)
          {
            if r != row {
              assert Kept@before(r);
            }
          }
          row := row + 1;
        }
        forall r: nat | r < rows && end <= r < begin + blocks * 64
          ensures !WrittenBy(r, block, blocks)
        {
          NotInGap(r, turn, block, blocks);
        }
        Distribute(turn, 1, blocks);
        turn := turn + 1;
        begin := begin + blocks * 64;
      }
    }

    method Launch(blocks: nat, order: seq<int>)
      requires Valid() && blocks > 0
      requires |order| == blocks && Injective(order) && forall k | 0 <= k < blocks :: 0 <= order[k] < blocks
      modifies indices, lengths
      ensures forall row: nat | row < |positions| :: Written(row)
    {
      for k := 0 to blocks
        invariant forall row: nat | row < |positions| && row / 64 % blocks in order[..k] :: Written(row)
      {
        label before:
        RunBlock(order[k], blocks);
        forall row: nat | row < |positions| && row / 64 % blocks in order[..k + 1]
          ensures Written(row)
        {
          if !WrittenBy(row, order[k], blocks) {
            assert row / 64 % blocks in order[..k];
            assert old@before(Written(row));
            assert Kept@before(row);
          }
        }
      }
      PigeonHole(order);
      forall row: nat | row < |positions| ensures Written(row) {
        DivMod(row / 64, blocks);
        assert order[..blocks] == order;
      }
    }
  }

  lemma NotInGap(row: nat, turn: nat, block: nat, blocks: nat)
    requires block < blocks
    requires (turn * blocks + block) * 64 + 64 <= row < (turn * blocks + block) * 64 + blocks * 64
    ensures !WrittenBy(row, block, blocks)
  {
    var run := row / 64;
    assert turn * blocks + block < run < turn * blocks + block + blocks;
    Distribute(turn, 1, blocks);
    if run < turn * blocks + blocks {
      DivUnique(run, blocks, turn, run - turn * blocks);
    } else {
      DivUnique(run, blocks, turn + 1, run - turn * blocks - blocks);
    }
  }

  /** The table the kernel leaves behind, whichever blocks wrote it. */
  ghost predicate KernelTable(indices: seq<int>, positions: seq<nat>, capacity: nat) {
    && capacity > 0 && |indices| == |positions| * capacity
    && (forall row: nat | row < |positions| ::
          RowOf(indices, capacity, |positions|, row) == KernelRow(positions[row], capacity))
  }

  /**
   Kernel, packing and host check agree: the candidates written for a packed
   batch pass the check under that batch's query ends and key lengths.
   */
  lemma PackedTablesPass(slices: seq<SequenceBatch.Slice>, capacity: nat, budget: nat, context: nat,
                         indices: seq<int>, topk: nat)
    requires SequenceBatch.Acceptable(slices, capacity, budget, context)
    requires KernelTable(indices, SequenceBatch.Pack(slices).positions, topk)
    ensures var b := SequenceBatch.Pack(slices);
      Accepted(Ints(b.queryEnds), Ints(b.kvLengths), indices, topk)
  {
    var b := SequenceBatch.Pack(slices);
    SequenceBatch.PackIsLaid(slices);
    var ends, lengths := Ints(b.queryEnds), Ints(b.kvLengths);
    assert SequenceBatch.MemberLaid(b, slices[|slices| - 1], |slices| - 1);
    forall n | 0 <= n < |ends|
      ensures SequenceAccepted(ends, lengths, indices, topk, n)
    {
      assert SequenceBatch.MemberLaid(b, slices[n], n);
      if n > 0 {
        assert SequenceBatch.MemberLaid(b, slices[n - 1], n - 1);
      }
      assert Start(ends, n) == b.starts[n];
      forall t | Start(ends, n) <= t < ends[n]
        ensures RowInTable(indices, topk, t, Causal(Start(ends, n), ends[n], lengths[n], t))
      {
        RowBounds(t, |b.positions|, topk);
        assert RowOf(indices, topk, |b.positions|, t) == KernelRow(b.positions[t], topk);
      }
    }
  }

  function Ints(s: seq<nat>): (r: seq<int>)
    ensures |r| == |s| && forall i | 0 <= i < |s| :: r[i] == s[i]
  {
    seq(|s|, i requires 0 <= i < |s| => s[i])
  }
}
