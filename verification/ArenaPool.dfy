/** The pool behind a frozen arena: size bins, exclusive leases, smallest sufficient block first. */
module ArenaPool {
  import opened Requests
  import opened Counting
  import opened FrozenArena
  import opened ArenaBinder

  type Bins = map<nat, seq<nat>>

  /** Block `id` waits in some bin. */
  predicate Waits(free: Bins, size: nat, id: nat) {
    size in free && id in free[size]
  }

  /** The block taken: of the smallest bin that holds an eligible one, the one freed last. */
  ghost predicate Chosen(free: Bins, bytes: nat, eligible: nat -> bool, size: nat, at: nat) {
    && bytes <= size && size in free && at < |free[size]| && eligible(free[size][at])
    && (forall i | at < i < |free[size]| :: !eligible(free[size][i]))
    && (forall s, id | bytes <= s < size && Waits(free, s, id) :: !eligible(id))
  }

  /** Nothing that waits would do. */
  ghost predicate Exhausted(free: Bins, bytes: nat, eligible: nat -> bool) {
    bytes == 0 || forall s, id | bytes <= s && Waits(free, s, id) :: !eligible(id)
  }

  function Without(bin: seq<nat>, at: nat): seq<nat>
    requires at < |bin|
  {
    bin[..at] + bin[at + 1..]
  }

  method Smallest(sizes: set<nat>) returns (least: nat)
    requires sizes != {}
    ensures least in sizes && forall s | s in sizes :: least <= s
  {
    least :| least in sizes;
    var rest := sizes - {least};
    while rest != {}
      invariant rest <= sizes && least in sizes
      invariant forall s | s in sizes && s !in rest :: least <= s
    {
      var s :| s in rest;
      if s < least {
        least := s;
      }
      rest := rest - {s};
    }
  }

  /** Scans one bin from the block freed last. */
  method LastEligible(bin: seq<nat>, eligible: nat -> bool) returns (at: Option<nat>)
    ensures at == None ==> forall id | id in bin :: !eligible(id)
    ensures at.Some? ==>
      at.value < |bin| && eligible(bin[at.value]) && forall i | at.value < i < |bin| :: !eligible(bin[i])
  {
    var i: nat := |bin|;
    while i > 0
      invariant i <= |bin| && forall j | i <= j < |bin| :: !eligible(bin[j])
    {
      i := i - 1;
      if eligible(bin[i]) {
        return Some(i);
      }
    }
    return None;
  }

  /** Bin after bin, upwards from the requested size. */
  method TakeBounded(free: Bins, bytes: nat, eligible: nat -> bool) returns (taken: Option<(nat, nat)>)
    ensures taken == None <==> Exhausted(free, bytes, eligible)
    ensures taken.Some? ==> Chosen(free, bytes, eligible, taken.value.0, taken.value.1)
  {
    if bytes == 0 {
      return None;
    }
    var rest := set s | s in free && bytes <= s;
    while rest != {}
      invariant forall s | s in rest :: s in free && bytes <= s
      invariant forall s, id | bytes <= s && Waits(free, s, id) && s !in rest :: !eligible(id)
      invariant forall r, s | r in rest && s in free && s !in rest && bytes <= s :: s < r
    {
      var size := Smallest(rest);
      var at := LastEligible(free[size], eligible);
      if at.Some? {
        assert Waits(free, size, free[size][at.value]);
        return Some((size, at.value));
      }
      rest := rest - {size};
    }
    return None;
  }

  /** Each slot waits in the bin of its size, once, or is leased. */
  ghost predicate Partition(l: Layout, free: Bins, live: set<nat>) {
    && (forall id | id in live :: id < |l.slots|)
    && (forall s: nat, id: nat | Waits(free, s, id) :: id < |l.slots| && l.slots[id].bytes == s && id !in live)
    && (forall s | s in free :: NoRepeat(free[s]))
    && (forall id: nat | id < |l.slots| && id !in live :: Waits(free, l.slots[id].bytes, id))
  }

  lemma TakeKeeps(l: Layout, free: Bins, live: set<nat>, size: nat, at: nat)
    requires Partition(l, free, live) && size in free && at < |free[size]|
    ensures Partition(l, free[size := Without(free[size], at)], live + {free[size][at]})
  {
    var bin, id := free[size], free[size][at];
    var less, more := Without(bin, at), live + {free[size][at]};
    var after := free[size := less];
    assert Waits(free, size, id);
    forall i | 0 <= i < |less| ensures less[i] in bin && less[i] != id {
      assert less[i] == bin[if i < at then i else i + 1];
    }
    forall i, j | 0 <= i < j < |less| ensures less[i] != less[j] {
      assert less[i] == bin[if i < at then i else i + 1] && less[j] == bin[if j < at then j else j + 1];
    }
    forall s: nat, x: nat | Waits(after, s, x) ensures x < |l.slots| && l.slots[x].bytes == s && x !in more {
      assert Waits(free, s, x);
    }
    forall x: nat | x < |l.slots| && x !in more ensures Waits(after, l.slots[x].bytes, x) {
      assert Waits(free, l.slots[x].bytes, x);
      if l.slots[x].bytes == size {
        var i :| 0 <= i < |bin| && bin[i] == x;
        assert less[if i < at then i else i - 1] == x;
      }
    }
  }

  lemma ReturnKeeps(l: Layout, free: Bins, live: set<nat>, id: nat)
    requires Partition(l, free, live) && id in live
    ensures id < |l.slots|
    ensures var size := l.slots[id].bytes;
      Partition(l, free[size := (if size in free then free[size] else []) + [id]], live - {id})
  {
    var size := l.slots[id].bytes;
    var bin := if size in free then free[size] else [];
    var after, less := free[size := bin + [id]], live - {id};
    forall x | x in bin ensures x != id {
      assert Waits(free, size, x);
    }
    forall s: nat, x: nat | Waits(after, s, x) ensures x < |l.slots| && l.slots[x].bytes == s && x !in less {
      if x != id || s != size { assert Waits(free, s, x); }
    }
    forall x: nat | x < |l.slots| && x !in less ensures Waits(after, l.slots[x].bytes, x) {
      if x != id { assert Waits(free, l.slots[x].bytes, x); }
    }
    forall i, j | 0 <= i < j < |bin + [id]| ensures (bin + [id])[i] != (bin + [id])[j] {
      assert bin[i] in bin;
    }
  }

  /** Different slots never share a byte, and none leaves the arena. */
  lemma {:induction false} SlotsDisjoint(l: Layout, i: nat, j: nat)
    requires Legal(l) && i < j < |l.slots|
    ensures l.slots[i].offset + l.slots[i].bytes <= l.slots[j].offset && l.slots[j].offset + l.slots[j].bytes <= l.bytes
    decreases j
  {
    assert SlotOk(l.slots, l.bytes, j);
    if i < j - 1 {
      SlotsDisjoint(l, i, j - 1);
    }
  }

  /** What a taken block may be used for: permitted by the envelope, and never the permanent workspace. */
  function Eligible(l: Layout, instruction: int, slot: nat): bool {
    PermitsSlot(l, instruction, slot) && slot != l.workspaceSlot
  }

  function Fitting(l: Layout, instruction: int): nat -> bool {
    (id: nat) => Eligible(l, instruction, id)
  }

  /** Block `id` is the one freed last of its bin. */
  ghost predicate OnTop(free: Bins, size: nat, id: nat) {
    size in free && free[size] != [] && free[size][|free[size]| - 1] == id
  }

  /** Block `id` is gone from its place in a bin; every other block of every bin is where it was. */
  ghost predicate Removed(before: Bins, after: Bins, size: nat, at: nat, id: nat) {
    && size in before && at < |before[size]| && before[size][at] == id
    && after == before[size := before[size][..at] + before[size][at + 1..]]
  }

  /** Block `id` lies on top of its bin; every other block is where it was. */
  ghost predicate Added(before: Bins, after: Bins, size: nat, id: nat) {
    && after.Keys == before.Keys + {size}
    && after[size] == (if size in before then before[size] else []) + [id]
    && forall s | s in before && s != size :: after[s] == before[s]
  }

  /** In every bin the blocks lie in the order of the arena, the first on top. */
  ghost predicate Stacked(free: Bins) {
    forall s, i, j | s in free && 0 <= i < j < |free[s]| :: free[s][i] > free[s][j]
  }

  ghost predicate FirstOnTop(free: Bins) {
    forall s, id | Waits(free, s, id) :: free[s][|free[s]| - 1] <= id
  }

  /** Nothing is leased but the workspace. */
  ghost predicate Idle(l: Layout, live: set<nat>) {
    forall id | id in live :: id == l.workspaceSlot
  }

  ghost predicate SmallestLatest(l: Layout, free: Bins, instruction: int, bytes: nat, id: nat)
    requires id < |l.slots|
  {
    var size := l.slots[id].bytes;
    size in free && exists at | 0 <= at < |free[size]| ::
      free[size][at] == id && Chosen(free, bytes, Fitting(l, instruction), size, at)
  }

  /** On an idle arena some waiting block will do for every permitted request. */
  lemma IdleServes(l: Layout, free: Bins, live: set<nat>, instruction: int, bytes: nat)
    requires Legal(l) && Partition(l, free, live) && Idle(l, live)
    requires PermitsRequest(l, instruction, bytes, false)
    ensures !Exhausted(free, bytes, Fitting(l, instruction))
  {
    var r := Lookup(l.rows, instruction).value;
    LookupIn(l.rows, instruction);
    var j :| 0 <= j < |l.rows| && l.rows[j] == r;
    assert RowOk(l, l.rows[j]);
    var id: nat :| id < |l.slots| && id != l.workspaceSlot
      && l.slots[id].bytes == MaxSlot(l.slots, l.workspaceSlot, |l.slots|);
    assert id !in live;
    assert Waits(free, l.slots[id].bytes, id);
    assert Eligible(l, instruction, id);
  }

  class Pool {
    const layout: Layout
    var free: Bins
    var live: set<nat>

    /** Free and leased blocks together are always all of them. */
    ghost predicate Valid()
      reads this
    {
      Legal(layout) && Partition(layout, free, live)
    }

    /** All blocks wait, the first ones on top of their bins. */
    constructor (layout: Layout)
      requires Legal(layout)
      ensures Valid() && live == {} && this.layout == layout
      ensures FirstOnTop(free) && Stacked(free)
    {
      this.layout := layout;
      free, live := map[], {};
      new;
      var i := |layout.slots|;
      while i > 0
        invariant i <= |layout.slots| && live == {} && this.layout == layout
        invariant forall s: nat, id: nat | Waits(free, s, id) :: i <= id < |layout.slots| && layout.slots[id].bytes == s
        invariant forall s | s in free :: NoRepeat(free[s])
        invariant forall id: nat | i <= id < |layout.slots| :: Waits(free, layout.slots[id].bytes, id)
        invariant FirstOnTop(free) && Stacked(free)
      {
        i := i - 1;
        PushKeeps(layout.slots, free, i);
        var size := layout.slots[i].bytes;
        free := free[size := (if size in free then free[size] else []) + [i]];
      }
    }

    /**
     * A lease of at least `bytes`, or a refusal that changes nothing. `bounded` asks for the smallest block
     * that will do; otherwise only a block of exactly this size is given.
     */
    method Acquire(instruction: int, bytes: nat, workspace: bool, bounded: bool) returns (block: Option<nat>)
      requires Valid()
      modifies this
      ensures Valid()
      ensures block == None ==> free == old(free) && live == old(live)
      ensures block.Some? ==>
        block.value !in old(live) && live == old(live) + {block.value} && block.value < |layout.slots|
      ensures block.Some? ==> bytes <= layout.slots[block.value].bytes && PermitsSlot(layout, instruction, block.value)
      ensures block.Some? ==> bytes > 0 && PermitsRequest(layout, instruction, bytes, workspace)
      ensures block.Some? ==>
        exists at: nat :: Removed(old(free), free, layout.slots[block.value].bytes, at, block.value)
      ensures bounded && block.Some? ==> SmallestLatest(layout, old(free), instruction, bytes, block.value)
      ensures bounded && block.Some? ==> block.value != layout.workspaceSlot
      ensures bounded && block == None ==>
        || !PermitsRequest(layout, instruction, bytes, workspace)
        || Exhausted(old(free), bytes, Fitting(layout, instruction))
      ensures !bounded && PermitsRequest(layout, instruction, bytes, workspace) && bytes > 0 ==>
        (forall id: nat | OnTop(old(free), bytes, id) && PermitsSlot(layout, instruction, id) :: block == Some(id))
      ensures !bounded && block.Some? ==>
        layout.slots[block.value].bytes == bytes && OnTop(old(free), bytes, block.value)
      ensures bounded && !workspace && Idle(layout, old(live)) ==>
        (block.Some? <==> PermitsRequest(layout, instruction, bytes, false))
    {
      hide Partition, Legal;
      if bounded && PermitsRequest(layout, instruction, bytes, false) && Idle(layout, live) {
        IdleServes(layout, free, live, instruction, bytes);
      }
      if bytes == 0 || !PermitsRequest(layout, instruction, bytes, workspace) {
        return None;
      }
      var size, at := bytes, 0;
      if bounded {
        var taken := TakeBounded(free, bytes, Fitting(layout, instruction));
        if taken == None {
          return None;
        }
        size, at := taken.value.0, taken.value.1;
      } else {
        if bytes !in free || free[bytes] == [] {
          return None;
        }
        at := |free[bytes]| - 1;
        if !PermitsSlot(layout, instruction, free[bytes][at]) {
          return None;
        }
      }
      var id := free[size][at];
      TakeKeeps(layout, free, live, size, at);
      InBin(layout, free, live, size, at);
      free, live := free[size := Without(free[size], at)], live + {id};
      assert Removed(old(free), free, layout.slots[id].bytes, at, id);
      return Some(id);
    }

    /** A lease given back waits on top of its bin; anything else is refused. */
    method Release(id: nat) returns (ok: bool)
      requires Valid()
      modifies this
      ensures Valid()
      ensures ok <==> id in old(live)
      ensures !ok ==> free == old(free) && live == old(live)
      ensures ok ==> live == old(live) - {id} && id < |layout.slots| && OnTop(free, layout.slots[id].bytes, id)
      ensures ok ==> Added(old(free), free, layout.slots[id].bytes, id)
    {
      hide Partition, Legal;
      if id !in live {
        return false;
      }
      ReturnKeeps(layout, free, live, id);
      var size := layout.slots[id].bytes;
      free, live := free[size := (if size in free then free[size] else []) + [id]], live - {id};
      return true;
    }
  }

  lemma InBin(l: Layout, free: Bins, live: set<nat>, size: nat, at: nat)
    requires Partition(l, free, live) && size in free && at < |free[size]|
    ensures free[size][at] < |l.slots| && l.slots[free[size][at]].bytes == size && free[size][at] !in live
  {
    assert Waits(free, size, free[size][at]);
  }

  lemma PushKeeps(slots: seq<Slot>, free: Bins, i: nat)
    requires i < |slots|
    requires forall s: nat, id: nat | Waits(free, s, id) :: i < id < |slots| && slots[id].bytes == s
    requires forall s | s in free :: NoRepeat(free[s])
    requires forall id: nat | i < id < |slots| :: Waits(free, slots[id].bytes, id)
    ensures var after := free[slots[i].bytes := (if slots[i].bytes in free then free[slots[i].bytes] else []) + [i]];
      && (forall s: nat, id: nat | Waits(after, s, id) :: i <= id < |slots| && slots[id].bytes == s)
      && (forall s | s in after :: NoRepeat(after[s]))
      && (forall id: nat | i <= id < |slots| :: Waits(after, slots[id].bytes, id))
      && (FirstOnTop(free) ==> FirstOnTop(after)) && (Stacked(free) ==> Stacked(after))
  {
    var size := slots[i].bytes;
    var bin := if size in free then free[size] else [];
    var after := free[size := bin + [i]];
    forall x | x in bin ensures i < x {
      assert Waits(free, size, x);
    }
    forall a, b | 0 <= a < b < |bin + [i]| ensures (bin + [i])[a] != (bin + [i])[b] {
      assert bin[a] in bin;
    }
    forall s: nat, id: nat | Waits(after, s, id) ensures i <= id < |slots| && slots[id].bytes == s {
      if s != size || id != i { assert Waits(free, s, id); }
    }
    forall id: nat | i <= id < |slots| ensures Waits(after, slots[id].bytes, id) {
      if id != i { assert Waits(free, slots[id].bytes, id); }
    }
    if Stacked(free) {
      forall s, a, b | s in after && 0 <= a < b < |after[s]| ensures after[s][a] > after[s][b] {
        assert s == size ==> bin[a] in bin;
      }
    }
    if FirstOnTop(free) {
      forall s, id | Waits(after, s, id) ensures after[s][|after[s]| - 1] <= id {
        if s != size { assert Waits(free, s, id); }
      }
    }
  }

  /**
   A prepared context: all blocks wait, and the workspace, if one is planned, is leased for good. It is the
   first slot, so from here on the arena is idle.
   */
  method Open(layout: Layout) returns (pool: Pool, ok: bool)
    requires Legal(layout)
    ensures fresh(pool) && pool.Valid() && pool.layout == layout
    ensures ok && pool.live == (if layout.workspaceSlot >= 0 then {0} else {}) && Idle(layout, pool.live)
  {
    pool := new Pool(layout);
    ok := true;
    if layout.workspaceSlot >= 0 {
      WorkspacePermitted(layout);
      assert Waits(pool.free, layout.slots[0].bytes, 0);
      var block := pool.Acquire(-1, layout.slots[0].bytes, true, false);
      ok := block.Some?;
    }
  }

  lemma WorkspacePermitted(l: Layout)
    requires Legal(l) && l.workspaceSlot >= 0
    ensures |l.slots| > 0 && l.slots[0].bytes > 0 && PermitsRequest(l, -1, l.slots[0].bytes, true)
    ensures PermitsSlot(l, -1, 0)
  {
    var j :| 0 <= j < |l.rows| && l.rows[j].instruction == -1 && l.rows[j].workspace;
    LookupFinds(l.rows, j);
    assert SlotOk(l.slots, l.bytes, 0);
  }

  /** Live leases never share a byte of the arena. */
  lemma LeasesDisjoint(l: Layout, free: Bins, live: set<nat>, i: nat, j: nat)
    requires Legal(l) && Partition(l, free, live) && i in live && j in live && i != j
    ensures i < |l.slots| && j < |l.slots|
    ensures
      || l.slots[i].offset + l.slots[i].bytes <= l.slots[j].offset
      || l.slots[j].offset + l.slots[j].bytes <= l.slots[i].offset
    ensures l.slots[i].offset + l.slots[i].bytes <= l.bytes
  {
    assert SlotOk(l.slots, l.bytes, i);
    if i < j { SlotsDisjoint(l, i, j); } else { SlotsDisjoint(l, j, i); }
  }
}
