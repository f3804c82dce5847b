/** The dispatch loop: values are computed in plan order and dropped after their last use. */
module Dispatch {
  import opened Requests
  import opened TokenPlan
  import opened CompactRows
  import SequenceBatch

  /** Reads of `x` that are still to come when `i` nodes have run. */
  ghost function Left(p: Plan, i: nat, x: nat): int
    requires i <= |p.nodes|
  {
    Edges(p.nodes, |p.nodes|, x) - Edges(p.nodes, i, x) + if x == p.output then 1 else 0
  }

  lemma {:induction false} EdgesGrow(nodes: seq<Node>, i: nat, n: nat, x: nat)
    requires i < n <= |nodes|
    ensures Edges(nodes, i, x) + Occurrences(nodes[i].inputs, x) <= Edges(nodes, n, x)
    decreases n
  {
    if i < n - 1 {
      EdgesGrow(nodes, i, n - 1, x);
    }
  }

  lemma {:induction false} NoEarlyEdges(nodes: seq<Node>, n: nat, x: nat)
    requires Topological(nodes) && n <= |nodes| && n <= x + 1
    ensures Edges(nodes, n, x) == 0
    decreases n
  {
    if n > 0 {
      NoEarlyEdges(nodes, n - 1, x);
      NeverNamed(nodes[n - 1].inputs, x);
    }
  }

  /** Gives each read of `inputs` back, and drops what was read for the last time. */
  method Release(values: seq<Option<Value>>, remaining: seq<nat>, inputs: seq<nat>)
      returns (kept: seq<Option<Value>>, left: seq<nat>)
    requires |values| == |remaining|
    requires forall j | 0 <= j < |inputs| :: inputs[j] < |remaining|
    requires forall x | 0 <= x < |remaining| :: Occurrences(inputs, x) <= remaining[x]
    ensures |kept| == |left| == |remaining|
    ensures forall x | 0 <= x < |left| :: left[x] == remaining[x] - Occurrences(inputs, x)
    ensures forall x | 0 <= x < |left| :: kept[x] == if x in inputs && left[x] == 0 then None else values[x]
  {
    hide Occurrences;
    kept, left := values, remaining;
    NoOccurrence();
    for k := 0 to |inputs|
      invariant |kept| == |left| == |remaining|
      invariant forall x | 0 <= x < |left| :: left[x] == remaining[x] - Occurrences(inputs[..k], x)
      invariant forall x | 0 <= x < |left| :: kept[x] == if x in inputs[..k] && left[x] == 0 then None else values[x]
    {
      var id := inputs[k];
      ghost var had := left;
      OneMore(inputs, k, id);
      forall x | 0 <= x < |left|
        ensures Occurrences(inputs[..k + 1], x)
          == Occurrences(inputs[..k], x) + (if x == id then 1 else 0)
      {
        OneMore(inputs, k, x);
      }
      left := left[id := left[id] - 1];
      if left[id] == 0 {
        kept := kept[id := None];
      }
    }
    assert inputs[..|inputs|] == inputs;
  }

  lemma NoOccurrence()
    ensures forall x :: Occurrences([], x) == 0
  {
  }

  lemma {:induction false} OneMore(inputs: seq<nat>, k: nat, x: nat)
    requires k < |inputs|
    ensures Occurrences(inputs[..k + 1], x) == Occurrences(inputs[..k], x) + (if x == inputs[k] then 1 else 0)
    ensures Occurrences(inputs[..k + 1], x) <= Occurrences(inputs, x)
    decreases |inputs|
  {
    assert inputs[..k + 1][..k] == inputs[..k];
    if k + 1 == |inputs| {
      assert inputs[..k + 1] == inputs;
    } else {
      OneMore(inputs[..|inputs| - 1], k, x);
      assert inputs[..|inputs| - 1][..k + 1] == inputs[..k + 1];
      assert inputs[..|inputs| - 1][..k] == inputs[..k];
    }
  }

  datatype Launch = Launch(kernels: Kernels, plan: Plan, tokens: nat, compact: bool, sel: seq<nat>)

  /** What the launcher may rely on: an accepted plan, and its kernel contract when rows are compacted. */
  ghost predicate Launchable(l: Launch) {
    && Accepted(l.plan)
    && (l.compact ==> l.plan.compact && GathersOk(l.plan))
  }

  ghost function Full(l: Launch, x: nat): Value
    requires Launchable(l) && x < |l.plan.nodes|
  {
    Eval(l.kernels, l.plan, x, l.tokens)
  }

  /** The source holds one row a token and every requested row is one of them. */
  ghost predicate Selectable(l: Launch)
    requires Launchable(l) && l.compact
  {
    |Full(l, l.plan.source)| == l.tokens && SelectsFrom(l.sel, l.tokens)
  }

  /** Node `x`'s value when `i` nodes have run. */
  ghost function Expected(l: Launch, i: nat, x: nat): Value
    requires Launchable(l) && x < |l.plan.nodes| && (l.compact && i > l.plan.first ==> Selectable(l))
  {
    var p := l.plan;
    if !l.compact || i <= p.first then Full(l, x)
    else if x == p.source then Select(Full(l, x), l.sel)
    else if x < p.first then Full(l, x)
    else Compacted(l.kernels, p, x, l.sel, l.tokens)
  }

  ghost predicate Started(l: Launch, i: nat)
    requires Launchable(l)
  {
    l.compact && i > l.plan.first ==> Selectable(l)
  }

  /** Exactly the values still to be read are held, and they are right. */
  ghost predicate Holds(l: Launch, i: nat, values: seq<Option<Value>>, remaining: seq<nat>)
    requires Launchable(l) && i <= |l.plan.nodes| && Started(l, i)
  {
    && |values| == |remaining| == |l.plan.nodes|
    && (forall x | 0 <= x < |remaining| :: remaining[x] == Left(l.plan, i, x))
    && (forall x | 0 <= x < |values| :: values[x].Some? <==> x < i && remaining[x] > 0)
    && (forall x | 0 <= x < |values| && values[x].Some? :: values[x].value == Expected(l, i, x))
  }

  lemma HoldsAtFirst(l: Launch, uses: seq<nat>)
    requires Launchable(l) && UsesCounted(l.plan, uses)
    ensures Holds(l, 0, seq(|l.plan.nodes|, i => None), uses)
  {
    hide Expected;
  }

  /** The inputs of the next node are there to be read. */
  lemma InputHeld(l: Launch, i: nat, values: seq<Option<Value>>, remaining: seq<nat>, x: nat)
    requires Launchable(l) && i < |l.plan.nodes| && Started(l, i) && Holds(l, i, values, remaining)
    requires x in l.plan.nodes[i].inputs
    ensures x < i && values[x].Some?
  {
    hide Expected;
    var inputs := l.plan.nodes[i].inputs;
    var k :| 0 <= k < |inputs| && inputs[k] == x;
    OccursCounted(inputs, k);
    EdgesGrow(l.plan.nodes, i, |l.plan.nodes|, x);
  }

  method Gather(l: Launch, i: nat, values: seq<Option<Value>>) returns (ins: seq<Value>)
    requires i < |l.plan.nodes|
    requires forall j | 0 <= j < |l.plan.nodes[i].inputs| ::
      l.plan.nodes[i].inputs[j] < |values| && values[l.plan.nodes[i].inputs[j]].Some?
    ensures |ins| == |l.plan.nodes[i].inputs|
    ensures forall j | 0 <= j < |ins| :: ins[j] == values[l.plan.nodes[i].inputs[j]].value
  {
    ins := [];
    var n := l.plan.nodes[i];
    for j := 0 to |n.inputs|
      invariant |ins| == j
      invariant forall m | 0 <= m < j :: ins[m] == values[n.inputs[m]].value
    {
      ins := ins + [values[n.inputs[j]].value];
    }
  }

  ghost function Rows(l: Launch, i: nat): nat
    requires Launchable(l)
  {
    if l.compact && i >= l.plan.first then |l.sel| else l.tokens
  }

  lemma ResultExpected(l: Launch, i: nat, ins: seq<Value>)
    requires Launchable(l) && i < |l.plan.nodes| && Started(l, i + 1)
    requires |ins| == |l.plan.nodes[i].inputs|
    requires forall j | 0 <= j < |ins| ::
      l.plan.nodes[i].inputs[j] < i && ins[j] == Expected(l, i + 1, l.plan.nodes[i].inputs[j])
    ensures Apply(l.kernels, l.plan, i, ins, Rows(l, i)) == Expected(l, i + 1, i)
  {
    hide Apply, AllReachable;
    var p, n := l.plan, l.plan.nodes[i];
    if l.compact && i >= p.first {
      assert ChainLink(p, i);
      if i == p.first {
        assert ins == [Select(Full(l, p.source), l.sel)];
      } else {
        assert ins == [Compacted(l.kernels, p, i - 1, l.sel, l.tokens)];
      }
    } else {
      assert ins == seq(|n.inputs|, j requires 0 <= j < |n.inputs| => Eval(l.kernels, p, n.inputs[j], l.tokens));
    }
  }

  /** As `Holds`, once the rows of the chain's source have been cut down if node `i` is the first of the chain. */
  ghost predicate Ready(l: Launch, i: nat, values: seq<Option<Value>>, remaining: seq<nat>)
    requires Launchable(l) && i < |l.plan.nodes| && Started(l, i + 1)
  {
    && |values| == |remaining| == |l.plan.nodes|
    && (forall x | 0 <= x < |remaining| :: remaining[x] == Left(l.plan, i, x))
    && (forall x | 0 <= x < |values| :: values[x].Some? <==> x < i && remaining[x] > 0)
    && (forall x | 0 <= x < |values| && values[x].Some? :: values[x].value == Expected(l, i + 1, x))
  }

  lemma ReadyAway(l: Launch, i: nat, values: seq<Option<Value>>, remaining: seq<nat>)
    requires Launchable(l) && i < |l.plan.nodes| && Started(l, i) && Holds(l, i, values, remaining)
    requires !l.compact || i != l.plan.first
    ensures Started(l, i + 1) && Ready(l, i, values, remaining)
  {
    hide Accepted, Left, Selectable;
  }

  lemma ReadyAtFirst(l: Launch, values: seq<Option<Value>>, remaining: seq<nat>, selected: Value)
    requires Launchable(l) && l.compact && Holds(l, l.plan.first, values, remaining) && Selectable(l)
    requires values[l.plan.source].Some? && selected == Select(Full(l, l.plan.source), l.sel)
    ensures Ready(l, l.plan.first, values[l.plan.source := Some(selected)], remaining)
  {
    hide Left, AllReachable;
  }

  lemma SourceHeld(l: Launch, values: seq<Option<Value>>, remaining: seq<nat>)
    requires Launchable(l) && l.compact && Holds(l, l.plan.first, values, remaining)
    ensures l.plan.source < |values| && values[l.plan.source] == Some(Full(l, l.plan.source))
  {
    assert ChainLink(l.plan, l.plan.first);
    InputHeld(l, l.plan.first, values, remaining, l.plan.source);
  }

  /** The selected rows, in request order. */
  method SelectRows(source: Value, sel: seq<nat>) returns (rows: Option<Value>)
    ensures rows.Some? <==> SelectsFrom(sel, |source|)
    ensures rows.Some? ==> rows.value == Select(source, sel)
  {
    var out := [];
    for k := 0 to |sel|
      invariant |out| == k && SelectsFrom(sel[..k], |source|)
      invariant forall j | 0 <= j < k :: sel[j] < |source| && out[j] == source[sel[j]]
    {
      if sel[k] >= |source| {
        return None;
      }
      out := out + [source[sel[k]]];
    }
    assert sel[..|sel|] == sel;
    return Some(out);
  }

  lemma StepHolds(l: Launch, i: nat, values: seq<Option<Value>>, remaining: seq<nat>, result: Value,
                  kept: seq<Option<Value>>, left: seq<nat>)
    requires Launchable(l) && i < |l.plan.nodes| && Started(l, i + 1) && Ready(l, i, values, remaining)
    requires result == Expected(l, i + 1, i)
    requires |kept| == |left| == |remaining|
    requires forall x | 0 <= x < |left| :: left[x] == remaining[x] - Occurrences(l.plan.nodes[i].inputs, x)
    requires forall x | 0 <= x < |left| ::
      kept[x] == if x in l.plan.nodes[i].inputs && left[x] == 0 then None else values[i := Some(result)][x]
    ensures Holds(l, i + 1, kept, left)
  {
    hide Expected;
    forall x | 0 <= x < |kept| ensures kept[x].Some? <==> x < i + 1 && left[x] > 0 {
      if x == i {
        NoEarlyEdges(l.plan.nodes, i + 1, i);
        NoEarlyEdges(l.plan.nodes, i, i);
        UsedSomewhere(l.plan, i);
      } else if x !in l.plan.nodes[i].inputs {
        NeverNamed(l.plan.nodes[i].inputs, x);
      }
    }
  }

  lemma UsedSomewhere(p: Plan, i: nat)
    requires Accepted(p) && i < |p.nodes|
    ensures Edges(p.nodes, |p.nodes|, i) + (if i == p.output then 1 else 0) >= 1
  {
    EveryNodeUsed(p, seq(|p.nodes|, x requires 0 <= x < |p.nodes| =>
      Edges(p.nodes, |p.nodes|, x) + if x == p.output then 1 else 0), i);
  }

  /** One node: read its inputs, compute, give back the reads. */
  method Step(l: Launch, i: nat, rows: nat, values: seq<Option<Value>>, remaining: seq<nat>)
      returns (kept: seq<Option<Value>>, left: seq<nat>)
    requires Launchable(l) && i < |l.plan.nodes| && Started(l, i + 1) && Ready(l, i, values, remaining)
    requires rows == Rows(l, i)
    ensures Holds(l, i + 1, kept, left)
  {
    hide Expected, Accepted, Left;
    StepReads(l, i, values, remaining);
    var ins := Gather(l, i, values);
    ResultExpected(l, i, ins);
    var result := Apply(l.kernels, l.plan, i, ins, rows);
    kept, left := Release(values[i := Some(result)], remaining, l.plan.nodes[i].inputs);
    StepHolds(l, i, values, remaining, result, kept, left);
  }

  lemma StepReads(l: Launch, i: nat, values: seq<Option<Value>>, remaining: seq<nat>)
    requires Launchable(l) && i < |l.plan.nodes| && Started(l, i + 1) && Ready(l, i, values, remaining)
    ensures forall j | 0 <= j < |l.plan.nodes[i].inputs| ::
      l.plan.nodes[i].inputs[j] < i && values[l.plan.nodes[i].inputs[j]].Some?
    ensures forall x | 0 <= x < |remaining| :: Occurrences(l.plan.nodes[i].inputs, x) <= remaining[x]
  {
    hide Expected;
    var inputs := l.plan.nodes[i].inputs;
    forall x | 0 <= x < |remaining| ensures Occurrences(inputs, x) <= remaining[x] {
      EdgesGrow(l.plan.nodes, i, |l.plan.nodes|, x);
    }
    forall j | 0 <= j < |inputs| ensures inputs[j] < i && values[inputs[j]].Some? {
      OccursCounted(inputs, j);
      assert 0 < Occurrences(inputs, inputs[j]) <= remaining[inputs[j]];
    }
  }

  /** The answer the caller should get. */
  ghost function Answer(l: Launch): Option<Value>
    requires Launchable(l)
  {
    if !l.compact then Some(Full(l, l.plan.output))
    else if l.sel == [] then Some([])
    else if Selectable(l) then Some(Select(FullRows(l), l.sel))
    else None
  }

  ghost function FullRows(l: Launch): (v: Value)
    requires Launchable(l) && l.compact && Selectable(l)
    ensures |v| == l.tokens
  {
    CompactOutputIsSelection(l.kernels, l.plan, l.sel, l.tokens);
    Full(l, l.plan.output)
  }

  lemma Finished(l: Launch, values: seq<Option<Value>>, remaining: seq<nat>)
    requires Launchable(l) && Started(l, |l.plan.nodes|) && Holds(l, |l.plan.nodes|, values, remaining)
    ensures forall x | 0 <= x < |values| :: values[x].Some? <==> x == l.plan.output
    ensures l.plan.output < |values|
    ensures values[l.plan.output] == (if l.compact then Some(Select(FullRows(l), l.sel)) else Answer(l))
  {
    if l.compact {
      CompactOutputIsSelection(l.kernels, l.plan, l.sel, l.tokens);
    }
  }

  /**
   * Runs a launch. It never reads a value that was dropped, drops every other value after its last use, and
   * returns the plan's output: all of its rows, or the requested ones.
   */
  method Execute(l: Launch, uses: seq<nat>) returns (output: Option<Value>)
    requires Launchable(l) && UsesCounted(l.plan, uses)
    ensures output == Answer(l)
  {
    hide Accepted, ChainOk, Expected, Holds, Ready, UsesCounted, Selectable;
    var values: seq<Option<Value>> := seq(|l.plan.nodes|, i => None);
    var remaining := uses;
    HoldsAtFirst(l, uses);
    var rows := l.tokens;
    for i := 0 to |l.plan.nodes|
      invariant Started(l, i) && Holds(l, i, values, remaining)
      invariant l.compact && i > l.plan.first ==> l.sel != []
      invariant rows == if l.compact && i > l.plan.first then |l.sel| else l.tokens
    {
      if l.compact && i == l.plan.first {
        if l.sel == [] {
          return Some([]);
        }
        SourceHeld(l, values, remaining);
        var source := values[l.plan.source].value;
        SelectableRows(l, source);
        if |source| != l.tokens {
          return None;
        }
        var selected := SelectRows(source, l.sel);
        if selected == None {
          return None;
        }
        ReadyAtFirst(l, values, remaining, selected.value);
        values := values[l.plan.source := selected];
        rows := |l.sel|;
      } else {
        ReadyAway(l, i, values, remaining);
      }
      values, remaining := Step(l, i, rows, values, remaining);
    }
    ChainInside(l);
    Finished(l, values, remaining);
    return values[l.plan.output];
  }

  lemma SelectableRows(l: Launch, source: Value)
    requires Launchable(l) && l.compact && source == Full(l, l.plan.source)
    ensures Selectable(l) <==> |source| == l.tokens && SelectsFrom(l.sel, |source|)
  {
  }

  lemma ChainInside(l: Launch)
    requires Launchable(l)
    ensures l.compact ==> l.plan.first < |l.plan.nodes|
  {
  }

  /** The row of the logits that answers request row `k`. */
  function LogitsRow(rows: seq<nat>, compact: bool, k: nat): nat
    requires k < |rows|
  {
    if compact then k else rows[k]
  }

  /** One token a sampled row, refused when a row is missing. */
  method EmitRows(best: Global -> nat, logits: Value, rows: seq<nat>, compact: bool) returns (tokens: Option<seq<nat>>)
    ensures tokens.Some? <==> forall k: nat | k < |rows| :: LogitsRow(rows, compact, k) < |logits|
    ensures tokens.Some? ==> |tokens.value| == |rows|
    ensures tokens.Some? ==> forall k: nat | k < |rows| :: tokens.value[k] == best(logits[LogitsRow(rows, compact, k)])
  {
    var out := [];
    for k := 0 to |rows|
      invariant |out| == k
      invariant forall j: nat | j < k ::
        LogitsRow(rows, compact, j) < |logits| && out[j] == best(logits[LogitsRow(rows, compact, j)])
    {
      if LogitsRow(rows, compact, k) >= |logits| {
        return None;
      }
      out := out + [best(logits[LogitsRow(rows, compact, k)])];
    }
    return Some(out);
  }

  /**
   * A packed batch samples the same tokens with and without compaction: its sample rows can always be
   * selected, and the k-th compact row is the full output's row for the k-th sampling member.
   */
  lemma CompactionKeepsSamples(l: Launch, slices: seq<SequenceBatch.Slice>, capacity: nat, context: nat)
    requires Launchable(l) && l.compact && SequenceBatch.MembersFit(slices, capacity, context)
    requires l.sel == SequenceBatch.Pack(slices).sampleRows && l.tokens == SequenceBatch.Total(slices)
    requires |Full(l, l.plan.source)| == l.tokens
    ensures Answer(l).Some? && |Answer(l).value| == |l.sel| && |Full(l, l.plan.output)| == l.tokens
    ensures forall k: nat | k < |l.sel| ::
      && LogitsRow(l.sel, false, k) < l.tokens
      && Answer(l).value[LogitsRow(l.sel, true, k)] == Full(l, l.plan.output)[LogitsRow(l.sel, false, k)]
  {
    SequenceBatch.SampleRowsAreLast(slices, capacity, context);
    SequenceBatch.PackIsLaid(slices);
    var b := SequenceBatch.Pack(slices);
    forall k | 0 <= k < |l.sel| ensures l.sel[k] < l.tokens {
      assert SequenceBatch.SampledLast(slices, b, k);
      var i: nat :| SequenceBatch.LastRowOf(slices, b, k, i);
      assert SequenceBatch.MemberLaid(b, slices[i], i);
    }
    CompactOutputIsSelection(l.kernels, l.plan, l.sel, l.tokens);
    assert Selectable(l);
  }
}
