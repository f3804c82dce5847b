/** The token program reader: what it accepts, once the bytes are decoded. */
module TokenPlan {
  import opened Requests
  import opened Counting

  const OUTPUT_WIDTH := 151552
  const WIDTH_LIMIT := 200000

  datatype Node = Node(
    kind: nat, width: nat, name: string, op: string, inputs: seq<nat>, attrs: map<string, string>,
    dtype: string, kernel: string, logical: nat)

  datatype Plan = Plan(
    physical: bool, context: nat, output: nat, residents: nat, prefillTokens: nat, sharedPages: bool,
    compact: bool, source: nat, sourceWidth: nat, first: nat, last: nat,
    nodes: seq<Node>)

  /** Decimal attribute text, as far as the reader accepts it. */
  function Integer(node: Node, key: string): Option<nat> {
    if key !in node.attrs || node.attrs[key] == [] then None
    else match Decimal(node.attrs[key])
      case None => None
      case Some(n) => if n > 20000000 then None else Some(n)
  }

  function Decimal(s: string): Option<nat> {
    if s == [] then Some(0)
    else match Decimal(s[..|s| - 1])
      case None => None
      case Some(n) =>
        if '0' <= s[|s| - 1] <= '9' then Some(10 * n + (s[|s| - 1] as int - '0' as int)) else None
  }

  /** A number written without leading zeros. */
  function Show(n: nat): (s: string)
    ensures s != []
  {
    (if n < 10 then [] else Show(n / 10)) + [('0' as int + n % 10) as char]
  }

  predicate Digits(s: string) {
    forall k | 0 <= k < |s| :: '0' <= s[k] <= '9'
  }

  /** Digits and nothing else are read. */
  lemma {:induction false} DecimalIff(s: string)
    ensures Decimal(s).Some? <==> Digits(s)
  {
    if s != [] {
      DecimalIff(s[..|s| - 1]);
    }
  }

  /** What is read is the number that was written, whatever zeros are in front of it. */
  lemma {:induction false} DecimalReads(n: nat, zeros: string)
    requires forall k | 0 <= k < |zeros| :: zeros[k] == '0'
    ensures Decimal(zeros + Show(n)) == Some(n)
  {
    var s := zeros + Show(n);
    assert s[|s| - 1] == ('0' as int + n % 10) as char;
    if n < 10 {
      assert s[..|s| - 1] == zeros;
      ZerosAreZero(zeros);
    } else {
      assert s[..|s| - 1] == zeros + Show(n / 10);
      DecimalReads(n / 10, zeros);
    }
  }

  lemma {:induction false} ZerosAreZero(zeros: string)
    requires forall k | 0 <= k < |zeros| :: zeros[k] == '0'
    ensures Decimal(zeros) == Some(0)
  {
    if zeros != [] {
      ZerosAreZero(zeros[..|zeros| - 1]);
    }
  }

  /** Main: an attribute gives the number it spells, up to twenty million, and no other text gives any. */
  lemma IntegerIff(node: Node, key: string, n: nat, zeros: string)
    requires forall k | 0 <= k < |zeros| :: zeros[k] == '0'
    ensures Integer(node, key).Some? ==> key in node.attrs && node.attrs[key] != [] && Digits(node.attrs[key])
    ensures key in node.attrs && node.attrs[key] == zeros + Show(n) ==>
      Integer(node, key) == if n <= 20_000_000 then Some(n) else None
  {
    if key in node.attrs {
      DecimalIff(node.attrs[key]);
    }
    DecimalReads(n, zeros);
  }

  /** Producers precede consumers. */
  ghost predicate Topological(nodes: seq<Node>) {
    forall i, k | 0 <= i < |nodes| && 0 <= k < |nodes[i].inputs| :: nodes[i].inputs[k] < i
  }

  ghost function DequantizeWidth(context: nat): nat {
    (context + 15) / 16 * 16 * 576
  }

  ghost predicate DescriptorOk(p: Plan, n: Node) {
    && !((p.residents > 1 || p.prefillTokens > 1 || p.sharedPages) && n.op == "cache_quantize_append")
    && n.kind <= (if p.physical then 9 else 4)
    && (n.width <= WIDTH_LIMIT || (p.physical && n.op == "cache_dequantize" && n.width == DequantizeWidth(p.context)))
    && |n.inputs| <= 8 && |n.attrs| <= 16
    && (p.physical ==> n.logical < |p.nodes|)
    && (p.physical ==> if n.kind == 0 then n.dtype in {"bf16", "f16", "f32"} else n.dtype == "opaque")
  }

  function Names(nodes: seq<Node>): seq<string> {
    seq(|nodes|, i requires 0 <= i < |nodes| => nodes[i].name)
  }

  ghost predicate NodesOk(p: Plan) {
    && (forall i | 0 <= i < |p.nodes| :: DescriptorOk(p, p.nodes[i]))
    && NoRepeat(Names(p.nodes))
    && Topological(p.nodes)
  }

  predicate Ordinary(op: string) {
    op in {"norm", "linear", "gather", "cast", "copy"}
  }

  /** gather_heads immediately undone by the head_to_token behind it. */
  ghost predicate Pair(p: Plan, i: nat)
    requires i < |p.nodes|
  {
    && p.nodes[i].op == "gather_heads" && i < p.last && i + 1 < |p.nodes| && p.nodes[i + 1].op == "head_to_token"
    && p.nodes[i].width == p.nodes[i + 1].width
    && "heads" in p.nodes[i].attrs && "heads" in p.nodes[i + 1].attrs
    && p.nodes[i].attrs["heads"] == p.nodes[i + 1].attrs["heads"]
  }

  ghost predicate ChainLink(p: Plan, i: nat)
    requires i < |p.nodes|
  {
    var n := p.nodes[i];
    && n.kind == 0 && n.inputs == [if i == p.first then p.source else i - 1]
    && (Ordinary(n.op) || Pair(p, i) || (n.op == "head_to_token" && i > p.first && p.nodes[i - 1].op == "gather_heads"))
  }

  ghost predicate CompactRange(p: Plan) {
    p.source < p.first < |p.nodes| && p.last == p.output == |p.nodes| - 1
  }

  /** The tail of the graph that may run on selected rows only. */
  ghost predicate ChainOk(p: Plan) {
    && CompactRange(p)
    && p.nodes[p.source].kind == 0 && p.nodes[p.source].width == p.sourceWidth > 0
    && (forall i | p.first <= i <= p.last :: ChainLink(p, i))
  }

  ghost predicate OutputOk(p: Plan) {
    p.output < |p.nodes| <= 10000 && p.nodes[p.output].kind == 0 && p.nodes[p.output].width == OUTPUT_WIDTH
  }

  /** `to` is needed to compute `from`. */
  ghost predicate Reaches(nodes: seq<Node>, from: nat, to: nat)
    requires Topological(nodes) && from < |nodes|
    decreases from
  {
    from == to || exists k | 0 <= k < |nodes[from].inputs| :: Reaches(nodes, nodes[from].inputs[k], to)
  }

  ghost predicate AllReachable(p: Plan)
    requires Topological(p.nodes) && p.output < |p.nodes|
  {
    forall i: nat | i < |p.nodes| :: Reaches(p.nodes, p.output, i)
  }

  ghost predicate Accepted(p: Plan) {
    NodesOk(p) && OutputOk(p) && (p.compact ==> ChainOk(p)) && AllReachable(p)
  }

  // ------------------------------------------------------------ the checks

  ghost predicate Closed(nodes: seq<Node>, live: set<nat>, i: nat) {
    forall a, k | a in live && i <= a < |nodes| && 0 <= k < |nodes[a].inputs| :: nodes[a].inputs[k] in live
  }

  lemma {:induction false} ClosedHoldsReached(nodes: seq<Node>, live: set<nat>, from: nat, to: nat)
    requires Topological(nodes) && from < |nodes| && from in live && Closed(nodes, live, 0)
    requires Reaches(nodes, from, to)
    ensures to in live
    decreases from
  {
    if from != to {
      var k :| 0 <= k < |nodes[from].inputs| && Reaches(nodes, nodes[from].inputs[k], to);
      ClosedHoldsReached(nodes, live, nodes[from].inputs[k], to);
    }
  }

  lemma {:induction false} ReachesThrough(nodes: seq<Node>, from: nat, via: nat, k: nat)
    requires Topological(nodes) && from < |nodes| && via < |nodes| && Reaches(nodes, from, via)
    requires k < |nodes[via].inputs|
    ensures Reaches(nodes, from, nodes[via].inputs[k])
    decreases from
  {
    if from == via {
      assert Reaches(nodes, nodes[via].inputs[k], nodes[via].inputs[k]);
    } else {
      var j :| 0 <= j < |nodes[from].inputs| && Reaches(nodes, nodes[from].inputs[j], via);
      ReachesThrough(nodes, nodes[from].inputs[j], via, k);
    }
  }

  ghost predicate Sound(nodes: seq<Node>, output: nat, live: set<nat>)
    requires Topological(nodes) && output < |nodes|
  {
    forall a | a in live :: a < |nodes| && Reaches(nodes, output, a)
  }

  lemma SweepStep(nodes: seq<Node>, output: nat, before: set<nat>, i: nat, added: set<nat>)
    requires Topological(nodes) && output < |nodes| && i < |nodes|
    requires i in before && Sound(nodes, output, before) && Closed(nodes, before, i + 1)
    requires added == set x | x in nodes[i].inputs
    ensures Sound(nodes, output, before + added) && Closed(nodes, before + added, i)
  {
    forall a | a in added ensures a < |nodes| && Reaches(nodes, output, a) {
      var k :| 0 <= k < |nodes[i].inputs| && nodes[i].inputs[k] == a;
      ReachesThrough(nodes, output, i, k);
    }
    assert forall a | a in added :: a < i;
  }

  /** One sweep from the last node to the first finds everything the output needs. */
  method Sweep(nodes: seq<Node>, output: nat) returns (live: set<nat>)
    requires Topological(nodes) && output < |nodes|
    ensures forall i: nat :: i in live <==> i < |nodes| && Reaches(nodes, output, i)
  {
    hide Closed, Sound, Topological;
    live := {output};
    SweepStart(nodes, output);
    var i := |nodes|;
    while i > 0
      invariant 0 <= i <= |nodes| && output in live
      invariant Sound(nodes, output, live) && Closed(nodes, live, i)
    {
      i := i - 1;
      if i in live {
        var added: set<nat> := set x | x in nodes[i].inputs;
        SweepStep(nodes, output, live, i, added);
        live := live + added;
      } else {
        SweepSkips(nodes, live, i);
      }
    }
    SweepEnds(nodes, output, live);
  }

  lemma SweepStart(nodes: seq<Node>, output: nat)
    requires Topological(nodes) && output < |nodes|
    ensures Sound(nodes, output, {output}) && Closed(nodes, {output}, |nodes|)
  {
  }

  lemma SweepSkips(nodes: seq<Node>, live: set<nat>, i: nat)
    requires i < |nodes| && i !in live && Closed(nodes, live, i + 1)
    ensures Closed(nodes, live, i)
  {
  }

  lemma SweepEnds(nodes: seq<Node>, output: nat, live: set<nat>)
    requires Topological(nodes) && output < |nodes| && output in live
    requires Sound(nodes, output, live) && Closed(nodes, live, 0)
    ensures forall i: nat :: i in live <==> i < |nodes| && Reaches(nodes, output, i)
  {
    forall j: nat | j < |nodes| && Reaches(nodes, output, j) ensures j in live {
      ClosedHoldsReached(nodes, live, output, j);
    }
  }

  function Occurrences(inputs: seq<nat>, i: nat): nat {
    if inputs == [] then 0
    else Occurrences(inputs[..|inputs| - 1], i) + if inputs[|inputs| - 1] == i then 1 else 0
  }

  /** Input edges of the first `n` nodes that name `i`. */
  function Edges(nodes: seq<Node>, n: nat, i: nat): nat
    requires n <= |nodes|
  {
    if n == 0 then 0 else Edges(nodes, n - 1, i) + Occurrences(nodes[n - 1].inputs, i)
  }

  /** `uses[i]` is the number of edges naming `i`, plus one for the plan output. */
  ghost predicate UsesCounted(p: Plan, uses: seq<nat>) {
    |uses| == |p.nodes| && forall i | 0 <= i < |uses| ::
      uses[i] == Edges(p.nodes, |p.nodes|, i) + if i == p.output then 1 else 0
  }

  lemma OccursCounted(inputs: seq<nat>, k: nat)
    requires k < |inputs|
    ensures Occurrences(inputs, inputs[k]) > 0
  {
    if k < |inputs| - 1 {
      OccursCounted(inputs[..|inputs| - 1], k);
    }
  }

  lemma {:induction false} EdgeCounted(nodes: seq<Node>, n: nat, a: nat, k: nat)
    requires a < n <= |nodes| && k < |nodes[a].inputs|
    ensures Edges(nodes, n, nodes[a].inputs[k]) > 0
    decreases n
  {
    if a == n - 1 {
      OccursCounted(nodes[a].inputs, k);
    } else {
      EdgeCounted(nodes, n - 1, a, k);
    }
  }

  lemma LastStep(nodes: seq<Node>, from: nat, to: nat) returns (via: nat, k: nat)
    requires Topological(nodes) && from < |nodes| && Reaches(nodes, from, to) && from != to
    ensures via < |nodes| && k < |nodes[via].inputs| && nodes[via].inputs[k] == to
    decreases from
  {
    var j :| 0 <= j < |nodes[from].inputs| && Reaches(nodes, nodes[from].inputs[j], to);
    if nodes[from].inputs[j] == to {
      via, k := from, j;
    } else {
      via, k := LastStep(nodes, nodes[from].inputs[j], to);
    }
  }

  /** In an accepted plan every node's value is used, so no use count starts at zero. */
  lemma EveryNodeUsed(p: Plan, uses: seq<nat>, i: nat)
    requires Accepted(p) && UsesCounted(p, uses) && i < |p.nodes|
    ensures uses[i] >= 1
  {
    if i != p.output {
      var via, k := LastStep(p.nodes, p.output, i);
      EdgeCounted(p.nodes, |p.nodes|, via, k);
    }
  }

  /** One link: its one input is the link before it, and it works row by row or is half of a layout pair. */
  method CheckLink(p: Plan, i: nat) returns (ok: bool)
    requires i < |p.nodes|
    ensures ok <==> ChainLink(p, i)
  {
    var n := p.nodes[i];
    if n.kind != 0 || |n.inputs| != 1 || n.inputs[0] != (if i == p.first then p.source else i - 1) {
      return false;
    }
    var ordinary := n.op == "norm" || n.op == "linear" || n.op == "gather" || n.op == "cast" || n.op == "copy";
    var pair := false;
    if n.op == "gather_heads" && i < p.last && i + 1 < |p.nodes| && p.nodes[i + 1].op == "head_to_token" {
      var m := p.nodes[i + 1];
      pair := n.width == m.width && "heads" in n.attrs && "heads" in m.attrs && n.attrs["heads"] == m.attrs["heads"];
    }
    var layout := n.op == "head_to_token" && i > p.first && p.nodes[i - 1].op == "gather_heads";
    return ordinary || pair || layout;
  }

  method CheckChain(p: Plan) returns (ok: bool)
    requires CompactRange(p)
    ensures ok <==> ChainOk(p)
  {
    if p.nodes[p.source].kind != 0 || p.nodes[p.source].width != p.sourceWidth || p.sourceWidth == 0 {
      return false;
    }
    for i := p.first to p.last + 1
      invariant forall j | p.first <= j < i :: ChainLink(p, j)
    {
      ok := CheckLink(p, i);
      if !ok {
        return;
      }
    }
    return true;
  }

  /** Node `i`'s edges: each must point back, and each adds a use to what it names. */
  method CountInputs(i: nat, inputs: seq<nat>, had: seq<nat>) returns (ok: bool, uses: seq<nat>)
    requires i <= |had|
    ensures ok <==> forall k | 0 <= k < |inputs| :: inputs[k] < i
    ensures ok ==> |uses| == |had| && forall x | 0 <= x < |uses| :: uses[x] == had[x] + Occurrences(inputs, x)
  {
    uses := had;
    for k := 0 to |inputs|
      invariant |uses| == |had|
      invariant forall x | 0 <= x < |uses| :: uses[x] == had[x] + Occurrences(inputs[..k], x)
      invariant forall j | 0 <= j < k :: inputs[j] < i
    {
      var id := inputs[k];
      if id >= i {
        return false, uses;
      }
      assert inputs[..k + 1][..k] == inputs[..k];
      uses := uses[id := uses[id] + 1];
    }
    assert inputs[..|inputs|] == inputs;
    return true, uses;
  }

  /** A node's own fields, as they are read. */
  method CheckDescriptor(p: Plan, n: Node) returns (ok: bool)
    ensures ok <==> DescriptorOk(p, n)
  {
    if (p.residents > 1 || p.prefillTokens > 1 || p.sharedPages) && n.op == "cache_quantize_append" {
      return false;
    }
    if n.kind > 9 || (n.kind > 4 && !p.physical) {
      return false;
    }
    if n.width > 200_000
       && !(p.physical && n.op == "cache_dequantize" && n.width == (p.context + 15) / 16 * 16 * 576) {
      return false;
    }
    if |n.inputs| > 8 || |n.attrs| > 16 {
      return false;
    }
    if p.physical {
      if n.logical >= |p.nodes| {
        return false;
      }
      if n.kind == 0 {
        return n.dtype == "bf16" || n.dtype == "f16" || n.dtype == "f32";
      }
      return n.dtype == "opaque";
    }
    return true;
  }

  /** Node by node: descriptors, names, order, and the use counts. */
  method CheckNodes(p: Plan) returns (ok: bool, uses: seq<nat>)
    ensures ok <==> NodesOk(p)
    ensures ok ==> |uses| == |p.nodes| && forall i | 0 <= i < |uses| :: uses[i] == Edges(p.nodes, |p.nodes|, i)
  {
    hide Listed, NoRepeat, DescriptorOk, Occurrences;
    var names := {};
    uses := seq(|p.nodes|, i => 0);
    ghost var row := Names(p.nodes);
    ListedStart(row);
    for i := 0 to |p.nodes|
      invariant |uses| == |p.nodes| && forall x | 0 <= x < |uses| :: uses[x] == Edges(p.nodes, i, x)
      invariant forall j | 0 <= j < i :: DescriptorOk(p, p.nodes[j])
      invariant Listed(row, i, names)
      invariant forall j, k | 0 <= j < i && 0 <= k < |p.nodes[j].inputs| :: p.nodes[j].inputs[k] < j
    {
      var n := p.nodes[i];
      ListedStep(row, i, names);
      ok := CheckDescriptor(p, n);
      if !ok || n.name in names {
        return false, uses;
      }
      names := names + {n.name};
      ok, uses := CountInputs(i, n.inputs, uses);
      if !ok {
        return;
      }
    }
    ListedAll(row, names);
    return true, uses;
  }

  /** The reader behind the header: accepts exactly the accepted plans, with their use counts. */
  method Read(p: Plan) returns (ok: bool, uses: seq<nat>)
    ensures ok <==> Accepted(p)
    ensures ok ==> UsesCounted(p, uses)
  {
    uses := [];
    if p.output >= |p.nodes| || |p.nodes| > 10000 {
      return false, uses;
    }
    if p.compact && (p.source >= p.first || p.first >= |p.nodes| || p.last != p.output || p.output != |p.nodes| - 1) {
      return false, uses;
    }
    ok, uses := CheckNodes(p);
    if !ok {
      return;
    }
    if p.nodes[p.output].kind != 0 || p.nodes[p.output].width != 151_552 {
      return false, uses;
    }
    if p.compact {
      ok := CheckChain(p);
      if !ok {
        return;
      }
    }
    uses := uses[p.output := uses[p.output] + 1];
    var live := Sweep(p.nodes, p.output);
    LiveSize(p, live);
    ok := |live| == |p.nodes|;
  }

  lemma LiveSize(p: Plan, live: set<nat>)
    requires Topological(p.nodes) && p.output < |p.nodes|
    requires forall i: nat :: i in live <==> i < |p.nodes| && Reaches(p.nodes, p.output, i)
    ensures |live| == |p.nodes| <==> AllReachable(p)
  {
    var all := Range(|p.nodes|);
    var ints: set<int> := live;
    assert ints <= all;
    if |live| == |p.nodes| {
      SameSize(ints, all);
      forall i: nat | i < |p.nodes| ensures Reaches(p.nodes, p.output, i) {
        assert i in all;
      }
    }
    if AllReachable(p) {
      assert ints == all;
    }
  }
}
