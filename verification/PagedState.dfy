/** Storage bounds of a plan's paged state, and the ring layout they lead to. */
module PagedState {
  import opened Requests
  import opened TokenPlan
  import Arith
  import SlidingWindow

  const RING_PAGE := 16

  datatype Contract = Contract(pageTokens: nat, capacity: nat, logical: nat) {
    function TableEntries(): nat
      requires pageTokens > 0
    {
      capacity / pageTokens
    }
  }

  predicate IsPaged(n: Node) {
    n.op in {"index_cache_append", "cache_append", "cache_norm_rope_append", "cache_c8_norm_rope_append"}
  }

  /** Node `i` attends over the cache `node` appends to. */
  predicate Consumer(p: Plan, node: Node, i: nat)
    requires i < |p.nodes|
  {
    var c := p.nodes[i];
    c.op == "latent_attention" && |c.inputs| > 1 && c.inputs[1] < |p.nodes| && p.nodes[c.inputs[1]].name == node.name
  }

  function Named(p: Plan, i: nat): nat
    requires i < |p.nodes|
  {
    match Integer(p.nodes[i], "window") case Some(w) => w case None => 0
  }

  /** Among the first `n` nodes every consumer names a window, and none departs from a window named before it. */
  ghost predicate Agree(p: Plan, node: Node, n: nat)
    requires n <= |p.nodes|
  {
    && (forall i | 0 <= i < n && Consumer(p, node, i) :: Integer(p.nodes[i], "window").Some?)
    && (forall i, j | 0 <= i < j < n && Consumer(p, node, i) && Consumer(p, node, j) && Named(p, i) != 0 ::
          Named(p, j) == Named(p, i))
  }

  /** `w` is the window the first `n` nodes settle on; 0 when none names one. */
  ghost predicate Settled(p: Plan, node: Node, n: nat, w: nat)
    requires n <= |p.nodes|
  {
    && (w != 0 ==> exists i | 0 <= i < n :: Consumer(p, node, i) && Named(p, i) == w)
    && (forall i | 0 <= i < n && Consumer(p, node, i) && Named(p, i) != 0 :: Named(p, i) == w)
  }

  /** The one window of all of the cache's readers. */
  ghost predicate Window(p: Plan, node: Node, w: nat) {
    w != 0 && Agree(p, node, |p.nodes|) && Settled(p, node, |p.nodes|, w)
  }

  method FindWindow(p: Plan, node: Node) returns (window: Option<nat>)
    ensures window.Some? <==> exists w :: Window(p, node, w)
    ensures window.Some? ==> Window(p, node, window.value)
  {
    hide Agree, Settled;
    var at: nat := 0;
    NothingSettled(p, node);
    for i := 0 to |p.nodes|
      invariant Agree(p, node, i) && Settled(p, node, i, at)
    {
      NextNode(p, node, i, at);
      if Consumer(p, node, i) {
        var next := Integer(p.nodes[i], "window");
        if next == None {
          NoWindow(p, node, i + 1);
          return None;
        }
        if at != 0 && at != next.value {
          NoWindow(p, node, i + 1);
          return None;
        }
        at := next.value;
      }
    }
    if at == 0 {
      UnnamedWindow(p, node);
      return None;
    }
    assert Window(p, node, at);
    return Some(at);
  }

  lemma NothingSettled(p: Plan, node: Node)
    ensures Agree(p, node, 0) && Settled(p, node, 0, 0)
  {
  }

  lemma NextNode(p: Plan, node: Node, i: nat, at: nat)
    requires i < |p.nodes| && Agree(p, node, i) && Settled(p, node, i, at)
    ensures !Consumer(p, node, i) ==> Agree(p, node, i + 1) && Settled(p, node, i + 1, at)
    ensures Consumer(p, node, i) ==>
      var next := Integer(p.nodes[i], "window");
      if next == None || (at != 0 && at != next.value) then !Agree(p, node, i + 1)
      else Agree(p, node, i + 1) && Settled(p, node, i + 1, next.value)
  {
    hide Consumer, Integer;
    if Consumer(p, node, i) && Integer(p.nodes[i], "window").Some? {
      if at != 0 {
        var j :| 0 <= j < i && Consumer(p, node, j) && Named(p, j) == at;
      }
    }
  }

  lemma NoWindow(p: Plan, node: Node, n: nat)
    requires n <= |p.nodes| && !Agree(p, node, n)
    ensures !exists w :: Window(p, node, w)
  {
  }

  lemma UnnamedWindow(p: Plan, node: Node)
    requires Settled(p, node, |p.nodes|, 0)
    ensures !exists w :: Window(p, node, w)
  {
  }

  function RoundedUp(tokens: nat, page: nat): nat
    requires page > 0
  {
    (tokens + page - 1) / page * page
  }

  /** What the contract of `node` has to be, for a cache that keeps the whole context or a window of it. */
  ghost predicate ContractIs(p: Plan, node: Node, c: Contract) {
    if node.op == "index_cache_append" then
      && Integer(node, "page_tokens") == Some(64) && c == Contract(64, RoundedUp(p.context, 64), 0)
      && c.capacity <= SlidingWindow.UINT32_MAX
    else if node.op == "cache_c8_norm_rope_append" then
      c == Contract(32, RoundedUp(p.context, 32), 0) && c.capacity <= SlidingWindow.UINT32_MAX
    else
      exists w ::
        && Window(p, node, w) && Ring(p, w).Some?
        && c == Contract(RING_PAGE, Ring(p, w).value.physicalPages * RING_PAGE, p.context)
  }

  function Ring(p: Plan, w: nat): Option<SlidingWindow.Layout> {
    SlidingWindow.Make(p.context, w, p.prefillTokens, RING_PAGE)
  }

  /** A cache has at most one window. */
  lemma WindowsAgree(p: Plan, node: Node, v: nat, w: nat)
    requires Window(p, node, v) && Window(p, node, w)
    ensures v == w
  {
  }

  method PagedStateContract(p: Plan, node: Node) returns (c: Option<Contract>)
    ensures c.Some? <==> p.context != 0 && IsPaged(node) && exists d :: ContractIs(p, node, d)
    ensures c.Some? ==> ContractIs(p, node, c.value)
  {
    if p.context == 0 || !IsPaged(node) {
      return None;
    }
    var page, capacity := 16, 512;
    if node.op == "index_cache_append" {
      var tokens := Integer(node, "page_tokens");
      if tokens != Some(64) {
        return None;
      }
      page, capacity := 64, p.context;
    } else if node.op == "cache_c8_norm_rope_append" {
      page, capacity := 32, p.context;
    } else {
      var window := FindWindow(p, node);
      if window == None {
        return None;
      }
      var ring := SlidingWindow.Create(p.context, window.value, p.prefillTokens, 16);
      if ring == None {
        forall w | Window(p, node, w) ensures Ring(p, w) == None {
          WindowsAgree(p, node, w, window.value);
        }
        return None;
      }
      c := Some(Contract(16, ring.value.physicalPages * 16, p.context));
      assert ContractIs(p, node, c.value);
      return;
    }
    var rounded := RoundedUp(capacity, page);
    if rounded > SlidingWindow.UINT32_MAX {
      return None;
    }
    c := Some(Contract(page, rounded, 0));
    assert ContractIs(p, node, c.value);
  }

  /** The bounds the plan reader checks in the header. */
  predicate HeaderOk(p: Plan) {
    0 < p.context <= 65536 && 0 < p.prefillTokens <= p.context
  }

  lemma RoundedBounds(tokens: nat, page: nat)
    requires page > 0
    ensures tokens <= RoundedUp(tokens, page) < tokens + page
    ensures RoundedUp(tokens, page) % page == 0 && RoundedUp(tokens, page) / page == Arith.CeilDiv(tokens, page)
  {
    Arith.DivMod(tokens + page - 1, page);
    Arith.MultipleMod((tokens + page - 1) / page, page);
  }

  /** On an accepted header every window gives a legal ring, no larger than the context's own pages. */
  lemma RingAlwaysBuilds(p: Plan, w: nat)
    requires HeaderOk(p) && w > 0
    ensures Ring(p, w).Some? && SlidingWindow.Legal(Ring(p, w).value)
    ensures 0 < Ring(p, w).value.physicalPages <= Arith.CeilDiv(p.context, RING_PAGE)
  {
    RoundedBounds(p.context, RING_PAGE);
    SlidingWindow.CeilPositive(p.context, RING_PAGE);
    var full := Arith.CeilDiv(p.context, RING_PAGE);
    var pages := Arith.Min(SlidingWindow.Straddle(w + p.prefillTokens - 1, RING_PAGE), full);
    Arith.MulMono(pages, full, RING_PAGE);
    SlidingWindow.DivNonNegative(w + p.prefillTokens - 1 + RING_PAGE - 2, RING_PAGE);
  }

  /** So on an accepted header the contract fails for four reasons only, all visible in the plan. */
  lemma ContractExistsIff(p: Plan, node: Node)
    requires HeaderOk(p)
    ensures IsPaged(node) && (exists c :: ContractIs(p, node, c)) <==>
      match node.op
      case "index_cache_append" => Integer(node, "page_tokens") == Some(64)
      case "cache_c8_norm_rope_append" => true
      case "cache_append" => exists w :: Window(p, node, w)
      case "cache_norm_rope_append" => exists w :: Window(p, node, w)
      case _ => false
  {
    RoundedBounds(p.context, 64);
    RoundedBounds(p.context, 32);
    if node.op == "index_cache_append" {
      if Integer(node, "page_tokens") == Some(64) {
        assert ContractIs(p, node, Contract(64, RoundedUp(p.context, 64), 0));
      }
    } else if node.op == "cache_c8_norm_rope_append" {
      assert ContractIs(p, node, Contract(32, RoundedUp(p.context, 32), 0));
    } else if w :| Window(p, node, w) {
      RingAlwaysBuilds(p, w);
      assert ContractIs(p, node, Contract(RING_PAGE, Ring(p, w).value.physicalPages * RING_PAGE, p.context));
    }
  }

  /** Node `i` is a windowed attention over the cache that node `a` appends to. */
  predicate Attends(p: Plan, a: nat, i: nat)
    requires i < |p.nodes|
  {
    p.nodes[i].op == "latent_attention" && |p.nodes[i].inputs| > 1 && p.nodes[i].inputs[1] == a
  }

  ghost predicate Says(p: Plan, i: nat, w: nat)
    requires i < |p.nodes|
  {
    Integer(p.nodes[i], "window") == Some(w)
  }

  /**
   The window in terms of the graph: somebody who attends over the cache names it, and so does everybody else, except
   that zero may be named by those before the first to name it.
   */
  lemma WindowIff(p: Plan, a: nat, w: nat)
    requires NodesOk(p) && a < |p.nodes|
    ensures Window(p, p.nodes[a], w) <==>
      && w != 0 && (exists i :: 0 <= i < |p.nodes| && Attends(p, a, i) && Says(p, i, w))
      && forall i | 0 <= i < |p.nodes| && Attends(p, a, i) ::
           Says(p, i, w) || (Says(p, i, 0) && forall j | 0 <= j < i && Attends(p, a, j) :: Says(p, j, 0))
  {
    hide Integer;
    forall i: nat | i < |p.nodes| ensures Consumer(p, p.nodes[a], i) <==> Attends(p, a, i) {
      ConsumerAttends(p, a, i);
    }
  }

  lemma ConsumerAttends(p: Plan, a: nat, i: nat)
    requires NodesOk(p) && a < |p.nodes| && i < |p.nodes|
    ensures Consumer(p, p.nodes[a], i) <==> Attends(p, a, i)
  {
    var names := Names(p.nodes);
    if |p.nodes[i].inputs| > 1 {
      var x := p.nodes[i].inputs[1];
      assert x < i;
      if x < a {
        assert names[x] != names[a];
      } else if a < x {
        assert names[a] != names[x];
      }
    }
  }

  /** The planned capacity holds every cell the cache can be asked to write, and is whole pages. */
  lemma CapacityHolds(p: Plan, node: Node, c: Contract)
    requires HeaderOk(p) && IsPaged(node) && ContractIs(p, node, c)
    ensures c.pageTokens > 0 && c.capacity % c.pageTokens == 0 && c.TableEntries() > 0
    ensures c.logical == 0 ==> p.context <= c.capacity < p.context + c.pageTokens
    ensures c.logical != 0 ==> exists w :: RingHolds(p, node, c, w)
  {
    if node.op == "index_cache_append" {
      RoundedBounds(p.context, 64);
    } else if node.op == "cache_c8_norm_rope_append" {
      RoundedBounds(p.context, 32);
    } else {
      var w :| Window(p, node, w) && Ring(p, w).Some?
        && c == Contract(RING_PAGE, Ring(p, w).value.physicalPages * RING_PAGE, p.context);
      RingAlwaysBuilds(p, w);
      var l := Ring(p, w).value;
      Arith.MultipleMod(l.physicalPages, RING_PAGE);
      forall position: nat | position < l.context
        ensures SlidingWindow.Append(l, position).Some? && SlidingWindow.Append(l, position).value < c.capacity
      {
        SlidingWindow.AppendInBounds(l, position);
      }
      assert RingHolds(p, node, c, w);
    }
  }

  ghost predicate RingHolds(p: Plan, node: Node, c: Contract, w: nat)
    requires c.pageTokens > 0
  {
    && Window(p, node, w) && Ring(p, w).Some? && Ring(p, w).value.physicalPages == c.TableEntries()
    && CellsInside(Ring(p, w).value, c.capacity)
  }

  ghost predicate CellsInside(l: SlidingWindow.Layout, capacity: nat) {
    && l.pageTokens > 0 && l.physicalPages > 0
    && forall position: nat | position < l.context ::
         SlidingWindow.Append(l, position).Some? && SlidingWindow.Append(l, position).value < capacity
  }
}
