/** Running the tail of an accepted plan on the sampled rows only. */
module CompactRows {
  import opened Requests
  import opened TokenPlan
  import Arith

  const RANKS := 8

  type Row = seq<real>
  /** One token's row on every rank. */
  type Global = seq<Row>
  type Value = seq<Global>

  /** Kernel arithmetic is left open: a row at a time, or on whole values. */
  datatype Kernels = Kernels(rowwise: (nat, Global) -> Global, whole: (nat, seq<Value>, nat) -> Value)

  function Shard(g: Global, rank: nat): Row {
    if rank < |g| then g[rank] else []
  }

  function Everywhere(row: Row): Global {
    seq(RANKS, _ => row)
  }

  /** Rank-major: all of rank 0's rows, then all of rank 1's, on every rank. */
  function Gathered(v: Value, heads: nat): Value {
    seq(heads * |v|, j => if |v| == 0 || j < 0 then [] else Everywhere(Shard(v[j % |v|], j / |v|)))
  }

  /** [heads, tokens] becomes [tokens, heads]. */
  function ToTokens(v: Value, heads: nat): Value {
    if heads == 0 then []
    else
      seq(|v| / heads, t =>
        seq(RANKS, rank => if t < 0 || rank < 0 then [] else Joined(v, heads, |v| / heads, t, rank)))
  }

  function Joined(v: Value, n: nat, tokens: nat, t: nat, rank: nat): Row {
    if n == 0 then []
    else
      var at := (n - 1) * tokens + t;
      Joined(v, n - 1, tokens, t, rank) + if at < |v| then Shard(v[at], rank) else []
  }

  function JoinedRanks(g: Global, n: nat): Row {
    if n == 0 then [] else JoinedRanks(g, n - 1) + Shard(g, n - 1)
  }

  function Heads(n: Node): nat {
    match Integer(n, "heads")
    case Some(h) => h
    case None => 0
  }

  /** What node `i` computes from its inputs, by operator name. */
  function Apply(k: Kernels, p: Plan, i: nat, ins: seq<Value>, tokens: nat): Value
    requires i < |p.nodes|
  {
    var n := p.nodes[i];
    if |ins| != 1 || n.kind != 0 then k.whole(i, ins, tokens)
    else if Ordinary(n.op) then Rowwise(k, i, ins[0])
    else if n.op == "gather_heads" then Gathered(ins[0], Heads(n))
    else if n.op == "head_to_token" then ToTokens(ins[0], Heads(n))
    else k.whole(i, ins, tokens)
  }

  function Rowwise(k: Kernels, i: nat, v: Value): Value {
    seq(|v|, t requires 0 <= t < |v| => k.rowwise(i, v[t]))
  }

  /** The value of a node when every token row is computed. */
  ghost function Eval(k: Kernels, p: Plan, i: nat, tokens: nat): Value
    requires Topological(p.nodes) && i < |p.nodes|
  {
    var n := p.nodes[i];
    Apply(k, p, i, seq(|n.inputs|, j requires 0 <= j < |n.inputs| => Eval(k, p, n.inputs[j], tokens)), tokens)
  }

  predicate SelectsFrom(sel: seq<nat>, tokens: nat) {
    forall k | 0 <= k < |sel| :: sel[k] < tokens
  }

  function Select(v: Value, sel: seq<nat>): Value
    requires SelectsFrom(sel, |v|)
  {
    seq(|sel|, k requires 0 <= k < |sel| => v[sel[k]])
  }

  ghost predicate Compactable(p: Plan) {
    Topological(p.nodes) && ChainOk(p) && GathersOk(p)
  }

  /** The kernel contract of gather_heads: one head group per rank. */
  ghost predicate GathersOk(p: Plan) {
    forall i | 0 <= i < |p.nodes| && p.nodes[i].op == "gather_heads" :: Integer(p.nodes[i], "heads") == Some(RANKS)
  }

  /** The value of a chain node when the source has been cut down to the selected rows. */
  ghost function Compacted(k: Kernels, p: Plan, i: nat, sel: seq<nat>, tokens: nat): Value
    requires Topological(p.nodes) && ChainOk(p) && p.first <= i <= p.last
    requires SelectsFrom(sel, |Eval(k, p, p.source, tokens)|)
  {
    var before := if i == p.first then Select(Eval(k, p, p.source, tokens), sel)
      else Compacted(k, p, i - 1, sel, tokens);
    Apply(k, p, i, [before], |sel|)
  }

  // -------------------------------------------------- the gather/layout pair

  lemma {:induction false} JoinedIsRanks(v: Value, heads: nat, n: nat, t: nat, rank: nat)
    requires n <= heads && t < |v| && rank < RANKS
    ensures Joined(Gathered(v, heads), n, |v|, t, rank) == JoinedRanks(v[t], n)
  {
    if n > 0 {
      JoinedIsRanks(v, heads, n - 1, t, rank);
      var at := (n - 1) * |v| + t;
      Arith.MulMono(n, heads, |v|);
      Arith.Distribute(n - 1, 1, |v|);
      Arith.MulPos(n - 1, |v|);
      Arith.DivUnique(at, |v|, n - 1, t);
    }
  }

  /** Only together are the two layout operators row by row. */
  lemma PairIsRowwise(v: Value, heads: nat)
    requires heads > 0
    ensures ToTokens(Gathered(v, heads), heads)
      == seq(|v|, t requires 0 <= t < |v| => Everywhere(JoinedRanks(v[t], heads)))
  {
    var gathered := Gathered(v, heads);
    Arith.DivUnique(heads * |v|, heads, |v|, 0);
    var joined := ToTokens(gathered, heads);
    forall t | 0 <= t < |v| ensures joined[t] == Everywhere(JoinedRanks(v[t], heads)) {
      forall rank | 0 <= rank < RANKS ensures joined[t][rank] == JoinedRanks(v[t], heads) {
        JoinedIsRanks(v, heads, heads, t, rank);
      }
    }
  }

  lemma PairSelects(v: Value, heads: nat, sel: seq<nat>)
    requires heads > 0 && SelectsFrom(sel, |v|)
    ensures |ToTokens(Gathered(v, heads), heads)| == |v|
    ensures ToTokens(Gathered(Select(v, sel), heads), heads) == Select(ToTokens(Gathered(v, heads), heads), sel)
  {
    PairIsRowwise(v, heads);
    PairIsRowwise(Select(v, sel), heads);
  }

  ghost predicate GatherDiffers(v: Value, sel: seq<nat>) {
    && SelectsFrom(sel, |v|) && SelectsFrom(sel, |Gathered(v, RANKS)|)
    && Gathered(Select(v, sel), RANKS) != Select(Gathered(v, RANKS), sel)
  }

  /** Selecting between the two would pick the wrong rows. */
  lemma GatherAloneMovesRows()
    ensures exists v, sel :: GatherDiffers(v, sel)
  {
    var v: Value := [Everywhere([0.0]), Everywhere([1.0])];
    assert SelectsFrom([1], |v|) && SelectsFrom([1], |Gathered(v, RANKS)|);
    assert |Gathered(Select(v, [1]), RANKS)| == 8 != |Select(Gathered(v, RANKS), [1])|;
    assert GatherDiffers(v, [1]);
  }

  // ------------------------------------------------------------- the theorem

  ghost function Before(k: Kernels, p: Plan, i: nat, tokens: nat): Value
    requires Topological(p.nodes) && ChainOk(p) && p.first <= i <= p.last
  {
    Eval(k, p, if i == p.first then p.source else i - 1, tokens)
  }

  lemma EvalLink(k: Kernels, p: Plan, i: nat, tokens: nat)
    requires Topological(p.nodes) && ChainOk(p) && p.first <= i <= p.last
    ensures Eval(k, p, i, tokens) == Apply(k, p, i, [Before(k, p, i, tokens)], tokens)
  {
    assert ChainLink(p, i);
    var n := p.nodes[i];
    assert seq(|n.inputs|, j requires 0 <= j < |n.inputs| => Eval(k, p, n.inputs[j], tokens))
      == [Before(k, p, i, tokens)];
  }

  ghost predicate Cut(k: Kernels, p: Plan, i: nat, sel: seq<nat>, tokens: nat)
    requires Topological(p.nodes) && ChainOk(p) && p.first <= i <= p.last
    requires SelectsFrom(sel, |Eval(k, p, p.source, tokens)|)
  {
    var before := if i == p.first then Select(Eval(k, p, p.source, tokens), sel)
      else Compacted(k, p, i - 1, sel, tokens);
    && |Before(k, p, i, tokens)| == |Eval(k, p, p.source, tokens)|
    && before == Select(Before(k, p, i, tokens), sel)
  }

  lemma LinkFacts(p: Plan, i: nat)
    requires Compactable(p) && p.first < i <= p.last
    ensures p.nodes[i - 1].op == "gather_heads" ==> p.nodes[i].op == "head_to_token"
  {
    assert ChainLink(p, i - 1) && ChainLink(p, i);
  }

  lemma PairFacts(p: Plan, i: nat)
    requires Compactable(p) && p.first <= i <= p.last
    requires !Ordinary(p.nodes[i].op) && p.nodes[i].op != "gather_heads"
    ensures i > p.first && p.nodes[i - 1].op == "gather_heads" && p.nodes[i].op == "head_to_token"
    ensures Heads(p.nodes[i - 1]) == Heads(p.nodes[i]) == RANKS
  {
    assert ChainLink(p, i) && ChainLink(p, i - 1);
  }

  lemma OrdinarySelects(k: Kernels, p: Plan, i: nat, sel: seq<nat>, tokens: nat)
    requires Compactable(p) && p.first <= i <= p.last && Ordinary(p.nodes[i].op)
    requires SelectsFrom(sel, |Eval(k, p, p.source, tokens)|) && Cut(k, p, i, sel, tokens)
    ensures |Eval(k, p, i, tokens)| == |Eval(k, p, p.source, tokens)|
    ensures Compacted(k, p, i, sel, tokens) == Select(Eval(k, p, i, tokens), sel)
  {
    hide Eval, Cut;
    assert ChainLink(p, i);
    EvalLink(k, p, i, tokens);
    CutBefore(k, p, i, sel, tokens);
    var before := Before(k, p, i, tokens);
    assert Rowwise(k, i, Select(before, sel)) == Select(Rowwise(k, i, before), sel);
  }

  lemma CutBefore(k: Kernels, p: Plan, i: nat, sel: seq<nat>, tokens: nat)
    requires Compactable(p) && p.first <= i <= p.last
    requires SelectsFrom(sel, |Eval(k, p, p.source, tokens)|) && Cut(k, p, i, sel, tokens)
    ensures |Before(k, p, i, tokens)| == |Eval(k, p, p.source, tokens)|
    ensures Compacted(k, p, i, sel, tokens) == Apply(k, p, i, [Select(Before(k, p, i, tokens), sel)], |sel|)
  {
  }

  lemma LayoutSelects(k: Kernels, p: Plan, i: nat, sel: seq<nat>, tokens: nat)
    requires Compactable(p) && p.first < i <= p.last && p.nodes[i].op == "head_to_token"
    requires p.nodes[i - 1].op == "gather_heads" && Heads(p.nodes[i - 1]) == Heads(p.nodes[i]) == RANKS
    requires SelectsFrom(sel, |Eval(k, p, p.source, tokens)|) && Cut(k, p, i - 1, sel, tokens)
    ensures |Eval(k, p, i, tokens)| == |Eval(k, p, p.source, tokens)|
    ensures Compacted(k, p, i, sel, tokens) == Select(Eval(k, p, i, tokens), sel)
  {
    hide Eval, Cut, Gathered, ToTokens;
    assert ChainLink(p, i) && ChainLink(p, i - 1);
    EvalLink(k, p, i, tokens);
    EvalLink(k, p, i - 1, tokens);
    CutBefore(k, p, i - 1, sel, tokens);
    PairSelects(Before(k, p, i - 1, tokens), RANKS, sel);
  }

  /** At every point of the chain outside a layout pair, the compact value is the selection of the full one. */
  lemma {:induction false} ChainSelects(k: Kernels, p: Plan, i: nat, sel: seq<nat>, tokens: nat)
    requires Compactable(p) && p.first <= i <= p.last && p.nodes[i].op != "gather_heads"
    requires SelectsFrom(sel, |Eval(k, p, p.source, tokens)|)
    ensures |Eval(k, p, i, tokens)| == |Eval(k, p, p.source, tokens)|
    ensures Compacted(k, p, i, sel, tokens) == Select(Eval(k, p, i, tokens), sel)
    decreases i
  {
    if Ordinary(p.nodes[i].op) {
      if i > p.first {
        LinkFacts(p, i);
        ChainSelects(k, p, i - 1, sel, tokens);
      }
      OrdinarySelects(k, p, i, sel, tokens);
    } else {
      PairFacts(p, i);
      if i - 1 > p.first {
        LinkFacts(p, i - 1);
        ChainSelects(k, p, i - 2, sel, tokens);
      }
      LayoutSelects(k, p, i, sel, tokens);
    }
  }

  /** Main: running the tail on the selected rows is selecting from the full output. */
  lemma CompactOutputIsSelection(k: Kernels, p: Plan, sel: seq<nat>, tokens: nat)
    requires Compactable(p) && SelectsFrom(sel, |Eval(k, p, p.source, tokens)|)
    ensures |Eval(k, p, p.output, tokens)| == |Eval(k, p, p.source, tokens)|
    ensures Compacted(k, p, p.output, sel, tokens) == Select(Eval(k, p, p.output, tokens), sel)
  {
    assert ChainLink(p, p.last);
    ChainSelects(k, p, p.last, sel, tokens);
  }

  /** Inside the chain a value is read once, by the next link. */
  lemma {:induction false} InteriorIsPrivate(p: Plan, i: nat, n: nat)
    requires Topological(p.nodes) && ChainOk(p) && p.first <= i < p.last && n <= |p.nodes|
    ensures Edges(p.nodes, n, i) == if n > i + 1 then 1 else 0
    ensures forall j, e | 0 <= j < n && 0 <= e < |p.nodes[j].inputs| && p.nodes[j].inputs[e] == i :: j == i + 1
    decreases n
  {
    if n > 0 {
      InteriorIsPrivate(p, i, n - 1);
      var inputs := p.nodes[n - 1].inputs;
      if n - 1 < p.first {
        NeverNamed(inputs, i);
      } else {
        assert ChainLink(p, n - 1);
        assert inputs[..|inputs| - 1] == [];
        assert Occurrences(inputs, i) == if inputs[0] == i then 1 else 0;
      }
    }
  }

  lemma {:induction false} NeverNamed(inputs: seq<nat>, i: nat)
    requires i !in inputs
    ensures Occurrences(inputs, i) == 0
  {
    if inputs != [] {
      NeverNamed(inputs[..|inputs| - 1], i);
    }
  }
}
