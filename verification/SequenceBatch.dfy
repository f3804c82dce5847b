/** The packed control layout of one batched submission. */
module SequenceBatch {
  import opened Requests
  import opened Counting

  const INT32_MAX := 0x7fff_ffff

  /** `tokens` consecutive positions of one resident, starting at `position`. */
  datatype Slice = Slice(resident: nat, position: nat, tokens: nat, sample: bool)

  datatype Batch = Batch(
    starts: seq<nat>, residents: seq<nat>, positions: seq<nat>, rowResidents: seq<nat>,
    queryEnds: seq<nat>, priorLengths: seq<nat>, kvLengths: seq<nat>, lengths: seq<nat>,
    sampleRows: seq<nat>, sampleResidents: seq<nat>)

  function Total(slices: seq<Slice>): nat {
    if slices == [] then 0 else Total(slices[..|slices| - 1]) + slices[|slices| - 1].tokens
  }

  ghost predicate Distinct(slices: seq<Slice>) {
    forall i, j | 0 <= i < j < |slices| :: slices[i].resident != slices[j].resident
  }

  ghost predicate MembersFit(slices: seq<Slice>, capacity: nat, context: nat) {
    forall i | 0 <= i < |slices| :: MemberFits(slices[i], capacity, context)
  }

  predicate MemberFits(s: Slice, capacity: nat, context: nat) {
    s.resident < capacity && s.tokens > 0 && s.position + s.tokens <= context
  }

  predicate Limits(capacity: nat, budget: nat, context: nat) {
    0 < capacity <= INT32_MAX && 0 < budget <= INT32_MAX && 0 < context <= INT32_MAX
  }

  /** The submissions that may be packed. */
  ghost predicate Acceptable(slices: seq<Slice>, capacity: nat, budget: nat, context: nat) {
    && slices != []
    && Limits(capacity, budget, context)
    && MembersFit(slices, capacity, context)
    && Distinct(slices)
    && Total(slices) <= budget
  }

  function Ramp(start: nat, count: nat): (s: seq<nat>)
    ensures |s| == count
    ensures forall i | 0 <= i < count :: s[i] == start + i
  {
    seq(count, i requires 0 <= i => start + i)
  }

  function Repeat(x: nat, count: nat): (s: seq<nat>)
    ensures |s| == count
    ensures forall i | 0 <= i < count :: s[i] == x
  {
    seq(count, i requires 0 <= i => x)
  }

  const EMPTY := Batch([0], [], [], [], [], [], [], [], [], [])

  /** The layout with one more member behind the rows packed so far. */
  function Append(b: Batch, s: Slice): Batch {
    var end := |b.positions| + s.tokens;
    Batch(b.starts + [end], b.residents + [s.resident],
          b.positions + Ramp(s.position, s.tokens), b.rowResidents + Repeat(s.resident, s.tokens),
          b.queryEnds + [end], b.priorLengths + [s.position], b.kvLengths + [s.position + s.tokens],
          b.lengths + Ramp(s.position + 1, s.tokens),
          b.sampleRows + (if s.sample && end > 0 then [end - 1] else []),
          b.sampleResidents + (if s.sample then [s.resident] else []))
  }

  function Pack(slices: seq<Slice>): Batch {
    if slices == [] then EMPTY else Append(Pack(slices[..|slices| - 1]), slices[|slices| - 1])
  }

  lemma {:induction false} TotalGrows(slices: seq<Slice>, n: nat)
    requires n <= |slices|
    ensures Total(slices[..n]) <= Total(slices)
    decreases |slices|
  {
    if n < |slices| {
      var shorter := slices[..|slices| - 1];
      assert shorter[..n] == slices[..n];
      TotalGrows(shorter, n);
    } else {
      assert slices[..n] == slices;
    }
  }

  /** Everything is checked before anything is laid out. */
  method Preflight(slices: seq<Slice>, capacity: nat, budget: nat, context: nat) returns (ok: bool)
    ensures ok <==> Acceptable(slices, capacity, budget, context)
  {
    if slices == [] || !Limits(capacity, budget, context) {
      return false;
    }
    hide Listed, NoRepeat, Total;
    var total, seen := 0, {};
    ghost var row := Residents(slices);
    ListedStart(row);
    TotalOfNone();
    assert slices[..0] == [];
    for n := 0 to |slices|
      invariant total == Total(slices[..n]) && total <= budget
      invariant Listed(row, n, seen)
      invariant forall i | 0 <= i < n :: MemberFits(slices[i], capacity, context)
    {
      var s := slices[n];
      ListedStep(row, n, seen);
      if s.resident >= capacity || s.resident in seen || s.tokens == 0 || s.position + s.tokens > context {
        DistinctListed(slices);
        return false;
      }
      seen := seen + {s.resident};
      TotalOfMore(slices, n);
      total := total + s.tokens;
      if total > budget {
        TotalGrows(slices, n + 1);
        return false;
      }
    }
    assert slices[..|slices|] == slices;
    ListedAll(row, seen);
    DistinctListed(slices);
    return true;
  }

  function Residents(slices: seq<Slice>): seq<nat> {
    seq(|slices|, i requires 0 <= i < |slices| => slices[i].resident)
  }

  lemma DistinctListed(slices: seq<Slice>)
    ensures Distinct(slices) <==> NoRepeat(Residents(slices))
  {
    var row := Residents(slices);
    if NoRepeat(row) {
      forall i, j | 0 <= i < j < |slices| ensures slices[i].resident != slices[j].resident {
        assert row[i] != row[j];
      }
    }
  }

  lemma TotalOfNone()
    ensures Total([]) == 0
  {
  }

  lemma TotalOfMore(slices: seq<Slice>, n: nat)
    requires n < |slices|
    ensures Total(slices[..n + 1]) == Total(slices[..n]) + slices[n].tokens
  {
    assert slices[..n + 1][..n] == slices[..n];
  }

  /** A member's rows behind those laid out so far. */
  method AppendRows(b: Batch, s: Slice) returns (positions: seq<nat>, rows: seq<nat>, lengths: seq<nat>)
    ensures positions == b.positions + Ramp(s.position, s.tokens)
    ensures rows == b.rowResidents + Repeat(s.resident, s.tokens)
    ensures lengths == b.lengths + Ramp(s.position + 1, s.tokens)
  {
    positions, rows, lengths := b.positions, b.rowResidents, b.lengths;
    for row := 0 to s.tokens
      invariant positions == b.positions + Ramp(s.position, row)
      invariant rows == b.rowResidents + Repeat(s.resident, row)
      invariant lengths == b.lengths + Ramp(s.position + 1, row)
    {
      positions := positions + [s.position + row];
      rows := rows + [s.resident];
      lengths := lengths + [s.position + row + 1];
    }
  }

  method Make(slices: seq<Slice>, capacity: nat, budget: nat, context: nat) returns (batch: Option<Batch>)
    ensures batch.Some? <==> Acceptable(slices, capacity, budget, context)
    ensures batch.Some? ==> batch.value == Pack(slices)
  {
    hide Pack, Acceptable;
    var ok := Preflight(slices, capacity, budget, context);
    if !ok {
      return None;
    }
    var out := EMPTY;
    PackNothing(slices);
    for n := 0 to |slices|
      invariant out == Pack(slices[..n])
    {
      var s := slices[n];
      var positions, rows, lengths := AppendRows(out, s);
      var end := |positions|;
      out := Batch(out.starts + [end], out.residents + [s.resident], positions, rows,
        out.queryEnds + [end], out.priorLengths + [s.position], out.kvLengths + [s.position + s.tokens], lengths,
        out.sampleRows + (if s.sample && end > 0 then [end - 1] else []),
        out.sampleResidents + (if s.sample then [s.resident] else []));
      PackMore(slices, n);
    }
    assert slices[..|slices|] == slices;
    return Some(out);
  }

  lemma PackNothing(slices: seq<Slice>)
    ensures Pack(slices[..0]) == EMPTY
  {
  }

  lemma PackMore(slices: seq<Slice>, n: nat)
    requires n < |slices|
    ensures Pack(slices[..n + 1]) == Append(Pack(slices[..n]), slices[n])
  {
    assert slices[..n + 1][..n] == slices[..n];
  }

  /** Where each member's rows lie, and what each row says. */
  ghost predicate Laid(b: Batch, slices: seq<Slice>) {
    && |b.starts| == |slices| + 1 && b.starts[0] == 0
    && |b.residents| == |b.queryEnds| == |b.priorLengths| == |b.kvLengths| == |slices|
    && |b.positions| == |b.rowResidents| == |b.lengths| == b.starts[|slices|]
    && (forall i | 0 <= i < |slices| :: MemberLaid(b, slices[i], i))
  }

  ghost predicate MemberLaid(b: Batch, s: Slice, i: nat)
    requires i < |b.residents| == |b.queryEnds| == |b.priorLengths| == |b.kvLengths|
    requires |b.starts| == |b.residents| + 1
    requires |b.positions| == |b.rowResidents| == |b.lengths|
  {
    && b.residents[i] == s.resident && b.priorLengths[i] == s.position
    && b.kvLengths[i] == s.position + s.tokens
    && b.starts[i] + s.tokens == b.starts[i + 1] == b.queryEnds[i] <= |b.positions|
    && (forall t | b.starts[i] <= t < b.starts[i + 1] ::
          && b.positions[t] == s.position + (t - b.starts[i])
          && b.rowResidents[t] == s.resident
          && b.lengths[t] == b.positions[t] + 1)
  }

  lemma {:induction false} PackIsLaid(slices: seq<Slice>)
    ensures Laid(Pack(slices), slices)
    ensures |Pack(slices).positions| == Total(slices)
    decreases |slices|
  {
    if slices != [] {
      var n := |slices| - 1;
      PackIsLaid(slices[..n]);
      var before, after := Pack(slices[..n]), Pack(slices);
      forall i | 0 <= i < |slices|
        ensures MemberLaid(after, slices[i], i)
      {
        if i < n {
          assert MemberLaid(before, slices[..n][i], i);
        }
      }
    }
  }

  /** Which member of a submission asked for a sample, read off the packed arrays alone. */
  function Members(b: Batch, n: nat): seq<Slice>
    requires n <= |b.residents| == |b.priorLengths| && n < |b.starts|
    requires forall i | 0 <= i < n :: b.starts[i] <= b.starts[i + 1]
  {
    if n == 0 then []
    else
      var last := Slice(b.residents[n - 1], b.priorLengths[n - 1], b.starts[n] - b.starts[n - 1],
                        b.residents[n - 1] in b.sampleResidents);
      Members(b, n - 1) + [last]
  }

  lemma {:induction false} SamplesOf(slices: seq<Slice>, r: nat)
    ensures r in Pack(slices).sampleResidents <==> exists i | 0 <= i < |slices| ::
      slices[i].resident == r && slices[i].sample
    decreases |slices|
  {
    if slices != [] {
      var n := |slices| - 1;
      SamplesOf(slices[..n], r);
      if i :| 0 <= i < |slices| && slices[i].resident == r && slices[i].sample {
        if i < n {
          assert slices[..n][i] == slices[i];
        }
      }
      if r in Pack(slices[..n]).sampleResidents {
        var i :| 0 <= i < n && slices[..n][i].resident == r && slices[..n][i].sample;
        assert slices[i] == slices[..n][i];
      }
    }
  }

  lemma {:induction false} MembersFromLaid(b: Batch, slices: seq<Slice>, n: nat)
    requires Laid(b, slices) && n <= |slices|
    requires forall i | 0 <= i < |slices| :: slices[i].sample <==> slices[i].resident in b.sampleResidents
    ensures forall i | 0 <= i < |slices| :: b.starts[i] <= b.starts[i + 1]
    ensures Members(b, n) == slices[..n]
    decreases n
  {
    forall i | 0 <= i < |slices| ensures b.starts[i] <= b.starts[i + 1] {
      assert MemberLaid(b, slices[i], i);
    }
    if n > 0 {
      MembersFromLaid(b, slices, n - 1);
      assert MemberLaid(b, slices[n - 1], n - 1);
      assert slices[..n] == slices[..n - 1] + [slices[n - 1]];
    }
  }

  /** Packing loses nothing: the arrays determine the member list again. */
  lemma PackRoundTrip(slices: seq<Slice>)
    requires Distinct(slices)
    ensures var b := Pack(slices);
      && |b.residents| == |b.priorLengths| == |slices| && |b.starts| == |slices| + 1
      && (forall i | 0 <= i < |slices| :: b.starts[i] <= b.starts[i + 1])
      && Members(b, |slices|) == slices
  {
    var b := Pack(slices);
    PackIsLaid(slices);
    forall i | 0 <= i < |slices|
      ensures slices[i].sample <==> slices[i].resident in b.sampleResidents
    {
      SamplesOf(slices, slices[i].resident);
    }
    MembersFromLaid(b, slices, |slices|);
    assert slices[..|slices|] == slices;
  }

  /** Sampled row `k` is the last row of sampling member `i`. */
  ghost predicate LastRowOf(slices: seq<Slice>, b: Batch, k: nat, i: nat) {
    && i < |slices| == |b.queryEnds| && k < |b.sampleRows| == |b.sampleResidents|
    && slices[i].sample && slices[i].resident == b.sampleResidents[k] && b.sampleRows[k] + 1 == b.queryEnds[i]
  }

  ghost predicate SampledLast(slices: seq<Slice>, b: Batch, k: nat) {
    exists i: nat :: LastRowOf(slices, b, k, i)
  }

  lemma LastRowStays(slices: seq<Slice>, b: Batch, s: Slice, k: nat, i: nat)
    requires LastRowOf(slices, b, k, i) && s.tokens > 0
    ensures LastRowOf(slices + [s], Append(b, s), k, i)
  {
  }

  lemma LastRowAdded(slices: seq<Slice>, b: Batch, s: Slice)
    requires |slices| == |b.queryEnds| && |b.sampleRows| == |b.sampleResidents| && s.sample && s.tokens > 0
    ensures LastRowOf(slices + [s], Append(b, s), |b.sampleRows|, |slices|)
  {
  }

  /** One sampled row per sampling member, and it is that member's last row. */
  lemma {:induction false} SampleRowsAreLast(slices: seq<Slice>, capacity: nat, context: nat)
    requires MembersFit(slices, capacity, context)
    ensures |Pack(slices).sampleRows| == |Pack(slices).sampleResidents| && |Pack(slices).queryEnds| == |slices|
    ensures forall k: nat | k < |Pack(slices).sampleRows| :: SampledLast(slices, Pack(slices), k)
    decreases |slices|
  {
    if slices != [] {
      var n := |slices| - 1;
      var front, s := slices[..n], slices[n];
      assert slices == front + [s];
      SampleRowsAreLast(front, capacity, context);
      var b := Pack(front);
      forall k: nat | k < |Pack(slices).sampleRows| ensures SampledLast(slices, Pack(slices), k) {
        if k < |b.sampleRows| {
          assert SampledLast(front, b, k);
          var i: nat :| LastRowOf(front, b, k, i);
          LastRowStays(front, b, s, k, i);
        } else {
          LastRowAdded(front, b, s);
        }
      }
    }
  }

  ghost predicate Narrow(xs: seq<nat>, bound: nat) {
    forall i | 0 <= i < |xs| :: xs[i] <= bound
  }

  ghost predicate NarrowBatch(b: Batch, capacity: nat, total: nat, context: nat) {
    && Narrow(b.starts, total) && Narrow(b.queryEnds, total) && Narrow(b.sampleRows, total)
    && Narrow(b.residents, capacity) && Narrow(b.rowResidents, capacity) && Narrow(b.sampleResidents, capacity)
    && Narrow(b.positions, context) && Narrow(b.priorLengths, context) && Narrow(b.kvLengths, context)
    && Narrow(b.lengths, context)
  }

  lemma NarrowMore(b: Batch, s: Slice, capacity: nat, total: nat, context: nat)
    requires NarrowBatch(b, capacity, total, context) && |b.positions| + s.tokens <= total
    requires s.resident <= capacity && s.position + s.tokens <= context
    ensures NarrowBatch(Append(b, s), capacity, total, context)
  {
  }

  lemma {:induction false} PackIsNarrow(slices: seq<Slice>, n: nat, capacity: nat, context: nat)
    requires n <= |slices| && MembersFit(slices, capacity, context)
    ensures NarrowBatch(Pack(slices[..n]), capacity, Total(slices), context)
  {
    hide Append, NarrowBatch, Pack;
    if n == 0 {
      PackNothing(slices);
      EmptyIsNarrow(capacity, Total(slices), context);
    } else {
      PackIsNarrow(slices, n - 1, capacity, context);
      PackMore(slices, n - 1);
      PackIsLaid(slices[..n - 1]);
      TotalOfMore(slices, n - 1);
      TotalGrows(slices, n);
      assert MemberFits(slices[n - 1], capacity, context);
      NarrowMore(Pack(slices[..n - 1]), slices[n - 1], capacity, Total(slices), context);
    }
  }

  lemma EmptyIsNarrow(capacity: nat, total: nat, context: nat)
    ensures NarrowBatch(EMPTY, capacity, total, context)
  {
  }

  /** Main: every number of a layout that is built fits a signed 32-bit word. */
  lemma PackFits(slices: seq<Slice>, capacity: nat, budget: nat, context: nat)
    requires Acceptable(slices, capacity, budget, context)
    ensures NarrowBatch(Pack(slices), 0x7fff_ffff, 0x7fff_ffff, 0x7fff_ffff)
  {
    hide Pack;
    PackIsNarrow(slices, |slices|, capacity, context);
    assert slices[..|slices|] == slices;
  }
}
