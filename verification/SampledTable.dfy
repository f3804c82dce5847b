/** A sharded open-addressing table with tombstones, of fixed capacity: it behaves as a finite map. */
module SampledTable {
  import opened Requests

  const SHARDS := 32
  const CAPACITY := 2048

  datatype Key = Key(pointer: nat, kind: nat)

  datatype Sample = Sample(bytes: nat, serial: nat)

  /** A slot holds nothing yet, held something once, or holds a sample. */
  datatype Cell = Empty | Tomb | Live(key: Key, sample: Sample)

  type Cells = s: seq<Cell> | |s| == CAPACITY witness seq(CAPACITY, _ => Empty)

  /** The `j`-th slot probed from `home`. */
  function Slot(home: nat, j: nat): (at: nat)
    ensures at < CAPACITY
  {
    (home + j) % CAPACITY
  }

  /** How many probes lead from `home` to a slot. */
  function Probes(home: nat, at: nat): (j: nat)
    requires at < CAPACITY
    ensures j < CAPACITY && Slot(home, j) == at
  {
    (at + CAPACITY - home % CAPACITY) % CAPACITY
  }

  lemma SlotsDiffer(home: nat, i: nat, j: nat)
    requires i < CAPACITY && j < CAPACITY && Slot(home, i) == Slot(home, j)
    ensures i == j
  {
  }

  ghost predicate OneEach(cells: Cells) {
    forall a, b | 0 <= a < b < CAPACITY && cells[a].Live? && cells[b].Live? :: cells[a].key != cells[b].key
  }

  /** The probe sequence of every sample gets to it before any slot that was never used. */
  ghost predicate Reachable(cells: Cells, home: Key -> nat) {
    forall at: nat, j: nat | at < CAPACITY && cells[at].Live? && j < Probes(home(cells[at].key), at) ::
      cells[Slot(home(cells[at].key), j)] != Empty
  }

  ghost predicate Ok(cells: Cells, home: Key -> nat) {
    OneEach(cells) && Reachable(cells, home)
  }

  /** The map a shard stands for. */
  ghost function Contents(cells: Cells): (m: map<Key, Sample>)
    requires OneEach(cells)
    ensures forall at | 0 <= at < CAPACITY && cells[at].Live? ::
      cells[at].key in m && m[cells[at].key] == cells[at].sample
    ensures forall k | k in m :: exists at | 0 <= at < CAPACITY :: cells[at] == Live(k, m[k])
  {
    map at | 0 <= at < CAPACITY && cells[at].Live? :: cells[at].key := cells[at].sample
  }

  /** Filling a slot that was free, with the way to it walked, adds exactly one entry and hides none. */
  lemma StoreKeeps(cells: Cells, home: Key -> nat, key: Key, sample: Sample, j: nat)
    requires Ok(cells, home) && key !in Contents(cells) && j < CAPACITY
    requires !cells[Slot(home(key), j)].Live?
    requires forall i: nat | i < j :: cells[Slot(home(key), i)] != Empty
    ensures var after: Cells := cells[Slot(home(key), j) := Live(key, sample)];
      Ok(after, home) && Contents(after) == Contents(cells)[key := sample]
  {
    var at := Slot(home(key), j);
    var after: Cells := cells[at := Live(key, sample)];
    SlotsDiffer(home(key), j, Probes(home(key), at));
    assert OneEach(after);
    var want := Contents(cells)[key := sample];
    forall k | k in want ensures k in Contents(after) && Contents(after)[k] == want[k] {
      if k != key {
        var b :| 0 <= b < CAPACITY && cells[b] == Live(k, Contents(cells)[k]);
        assert after[b] == cells[b];
      } else {
        assert after[at] == Live(key, sample);
      }
    }
  }

  /** A tombstone removes exactly one entry and keeps every way open. */
  lemma EraseKeeps(cells: Cells, home: Key -> nat, at: nat)
    requires Ok(cells, home) && at < CAPACITY && cells[at].Live?
    ensures var after: Cells := cells[at := Tomb];
      Ok(after, home) && Contents(after) == Contents(cells) - {cells[at].key}
  {
    var after: Cells := cells[at := Tomb];
    assert OneEach(after);
    var want := Contents(cells) - {cells[at].key};
    forall k | k in want ensures k in Contents(after) && Contents(after)[k] == want[k] {
      var b :| 0 <= b < CAPACITY && cells[b] == Live(k, Contents(cells)[k]);
      assert after[b] == cells[b];
    }
  }

  /** Probing `j` slots without meeting the key; stopping there is right at a never-used slot, or after all of them. */
  lemma NotThere(cells: Cells, home: Key -> nat, key: Key, j: nat)
    requires Ok(cells, home) && j <= CAPACITY
    requires forall i: nat | i < j :: !(cells[Slot(home(key), i)].Live? && cells[Slot(home(key), i)].key == key)
    requires j < CAPACITY ==> cells[Slot(home(key), j)] == Empty
    ensures key !in Contents(cells)
  {
    if key in Contents(cells) {
      var at :| 0 <= at < CAPACITY && cells[at] == Live(key, Contents(cells)[key]);
      var d := Probes(home(key), at);
    }
  }

  /** Neither a never-used slot nor a tombstone. */
  ghost predicate Full(cells: seq<Cell>) {
    forall at | 0 <= at < |cells| :: cells[at].Live?
  }

  /** Samples among the first `n` slots, and their keys. */
  function LiveCount(cells: seq<Cell>, n: nat): (count: nat)
    requires n <= |cells|
    ensures count <= n
  {
    if n == 0 then 0 else LiveCount(cells, n - 1) + if cells[n - 1].Live? then 1 else 0
  }

  ghost function LiveKeys(cells: seq<Cell>, n: nat): set<Key>
    requires n <= |cells|
  {
    if n == 0 then {} else LiveKeys(cells, n - 1) + if cells[n - 1].Live? then {cells[n - 1].key} else {}
  }

  ghost predicate KeyAt(cells: seq<Cell>, n: nat, k: Key) {
    n <= |cells| && exists at | 0 <= at < n :: cells[at].Live? && cells[at].key == k
  }

  lemma {:induction false} KeysAre(cells: seq<Cell>, n: nat, k: Key)
    requires n <= |cells|
    ensures k in LiveKeys(cells, n) <==> KeyAt(cells, n, k)
  {
    if n > 0 {
      KeysAre(cells, n - 1, k);
    }
  }

  lemma {:induction false} CountIsKeys(cells: Cells, n: nat)
    requires OneEach(cells) && n <= CAPACITY
    ensures |LiveKeys(cells, n)| == LiveCount(cells, n)
  {
    if n > 0 {
      CountIsKeys(cells, n - 1);
      if cells[n - 1].Live? {
        KeysAre(cells, n - 1, cells[n - 1].key);
      }
    }
  }

  lemma {:induction false} AllLive(cells: seq<Cell>, n: nat)
    requires n <= |cells|
    ensures LiveCount(cells, n) == n <==> forall at | 0 <= at < n :: cells[at].Live?
  {
    if n > 0 {
      AllLive(cells, n - 1);
    }
  }

  /** A shard is full exactly when it holds 2048 samples; tombstones do not count. */
  lemma FullIff(cells: Cells)
    requires OneEach(cells)
    ensures |Contents(cells)| <= 2048 && (Full(cells) <==> |Contents(cells)| == 2048)
  {
    CountIsKeys(cells, CAPACITY);
    AllLive(cells, CAPACITY);
    forall k ensures k in Contents(cells).Keys <==> k in LiveKeys(cells, CAPACITY) {
      KeysAre(cells, CAPACITY, k);
    }
    assert Contents(cells).Keys == LiveKeys(cells, CAPACITY);
  }

  /** The first slot of a key's probe sequence that is free. */
  ghost predicate FirstFree(cells: seq<Cell>, home: nat, j: nat) {
    && |cells| == CAPACITY && j < CAPACITY && !cells[Slot(home, j)].Live?
    && forall i: nat | i < j :: cells[Slot(home, i)].Live?
  }

  ghost predicate Taken(before: seq<Cell>, after: seq<Cell>, home: nat, j: nat, cell: Cell) {
    FirstFree(before, home, j) && after == before[Slot(home, j) := cell]
  }

  class Shard {
    const cells: array<Cell>
    const home: Key -> nat

    ghost predicate Valid()
      reads this, cells
    {
      cells.Length == CAPACITY && Ok(cells[..], home)
    }

    ghost function Map(): map<Key, Sample>
      requires Valid()
      reads this, cells
    {
      Contents(cells[..])
    }

    constructor (home: Key -> nat)
      ensures Valid() && Map() == map[] && fresh(cells) && this.home == home
    {
      this.home := home;
      cells := new Cell[CAPACITY](_ => Empty);
    }

    /** The probing loop of a removal: the slot of a key, if it has one. */
    method Find(key: Key) returns (slot: Option<nat>)
      requires Valid()
      ensures slot.Some? <==> key in Map()
      ensures slot.Some? ==> slot.value < CAPACITY && cells[slot.value].Live? && cells[slot.value].key == key
    {
      var j: nat := 0;
      while j < CAPACITY
        invariant j <= CAPACITY
        invariant forall i: nat | i < j :: !(cells[Slot(home(key), i)].Live? && cells[Slot(home(key), i)].key == key)
      {
        var at := Slot(home(key), j);
        if cells[at] == Empty {
          break;
        }
        if cells[at].Live? && cells[at].key == key {
          return Some(at);
        }
        j := j + 1;
      }
      NotThere(cells[..], home, key, j);
      return None;
    }

    /** Exact removal; removing what is not there changes nothing. */
    method Forget(key: Key)
      requires Valid()
      modifies cells
      ensures Valid() && Map() == old(Map()) - {key}
      ensures Full(cells[..]) <==> Full(old(cells[..])) && key !in old(Map())
    {
      var slot := Find(key);
      if slot.Some? {
        EraseKeeps(cells[..], home, slot.value);
        ghost var after: Cells := cells[..][slot.value := Tomb];
        cells[slot.value] := Tomb;
        assert cells[..] == after;
      }
    }

    /** The first tombstone on the way, or else the never-used slot that ends it. */
    method FindFree(key: Key) returns (probe: Option<nat>)
      requires Valid()
      ensures probe == None <==> Full(cells[..])
      ensures probe.Some? ==> FirstFree(cells[..], home(key), probe.value)
    {
      probe := None;
      var j: nat := 0;
      while j < CAPACITY
        invariant j <= CAPACITY
        invariant forall i: nat | i < j :: cells[Slot(home(key), i)] != Empty
        invariant probe == None ==> forall i: nat | i < j :: cells[Slot(home(key), i)].Live?
        invariant probe.Some? ==> probe.value < j && cells[Slot(home(key), probe.value)] == Tomb
        invariant probe.Some? ==> FirstFree(cells[..], home(key), probe.value)
      {
        var at := Slot(home(key), j);
        if cells[at] == Tomb && probe == None {
          probe := Some(j);
        }
        if cells[at] == Empty {
          if probe == None {
            probe := Some(j);
          }
          break;
        }
        j := j + 1;
      }
      if probe == None {
        forall at | 0 <= at < CAPACITY ensures cells[..][at].Live? {
          var d := Probes(home(key), at);
          assert cells[Slot(home(key), d)].Live?;
        }
      }
    }

    /** Records a sample for a key that has none; refused exactly when no slot is free. */
    method Record(key: Key, sample: Sample) returns (kept: bool)
      requires Valid() && key !in Map()
      modifies cells
      ensures Valid()
      ensures kept <==> !Full(old(cells[..]))
      ensures Map() == if kept then old(Map())[key := sample] else old(Map())
      ensures kept ==> exists j: nat :: Taken(old(cells[..]), cells[..], home(key), j, Live(key, sample))
    {
      var probe := FindFree(key);
      kept := probe.Some?;
      if kept {
        StoreKeeps(cells[..], home, key, sample, probe.value);
        var at := Slot(home(key), probe.value);
        ghost var after: Cells := cells[..][at := Live(key, sample)];
        cells[at] := Live(key, sample);
        assert cells[..] == after;
        assert Taken(old(cells[..]), cells[..], home(key), probe.value, Live(key, sample));
      }
    }

    /** Every sample, once. */
    method Snapshot() returns (rows: seq<(Key, Sample)>)
      requires Valid()
      ensures forall k, s :: (k, s) in rows <==> k in Map() && Map()[k] == s
      ensures forall i, j | 0 <= i < j < |rows| :: rows[i].0 != rows[j].0
    {
      rows := [];
      for at := 0 to CAPACITY
        invariant forall i | 0 <= i < |rows| :: exists b | 0 <= b < at :: cells[b] == Live(rows[i].0, rows[i].1)
        invariant forall b | 0 <= b < at && cells[b].Live? :: (cells[b].key, cells[b].sample) in rows
        invariant forall i, j | 0 <= i < j < |rows| :: rows[i].0 != rows[j].0
      {
        if cells[at].Live? {
          rows := rows + [(cells[at].key, cells[at].sample)];
        }
      }
    }
  }

  /** All shards. A key's hash picks the shard and where probing starts in it. */
  class Table {
    const shards: seq<Shard>
    const hash: Key -> nat
    var serial: nat
    var dropped: nat

    ghost predicate Valid()
      reads shards, set s | s in shards :: s.cells
    {
      && |shards| == SHARDS
      && (forall i, j | 0 <= i < j < SHARDS :: shards[i] != shards[j] && shards[i].cells != shards[j].cells)
      && (forall i | 0 <= i < SHARDS :: ShardOk(i))
    }

    /** Shard `i` is sound and holds only keys that hash to it. */
    ghost predicate ShardOk(i: nat)
      requires i < |shards|
      reads shards[i], shards[i].cells
    {
      && shards[i].Valid()
      && (forall k :: shards[i].home(k) == hash(k) / SHARDS)
      && (forall k | k in shards[i].Map() :: ShardOf(k) == i)
    }

    function ShardOf(key: Key): (i: nat)
      ensures i < SHARDS
    {
      hash(key) % SHARDS
    }

    /** The sample a key stands for. */
    ghost function Lookup(key: Key): Option<Sample>
      requires Valid()
      reads shards, set s | s in shards :: s.cells
    {
      assert ShardOk(ShardOf(key));
      var m := shards[ShardOf(key)].Map();
      if key in m then Some(m[key]) else None
    }

    /** The shard of a key has a slot that holds no sample. */
    ghost predicate Room(key: Key)
      requires Valid()
      reads shards, set s | s in shards :: s.cells
    {
      !Full(shards[hash(key) % 32].cells[..])
    }

    method Forget(key: Key)
      requires Valid()
      modifies set s | s in shards :: s.cells
      ensures Valid()
      ensures forall k :: Lookup(k) == if k == key && key.pointer != 0 then None else old(Lookup(k))
      ensures forall k :: Room(k) <==>
        old(Room(k)) || (key.pointer != 0 && hash(k) % 32 == hash(key) % 32 && old(Lookup(key)).Some?)
    {
      hide Ok, Contents;
      if key.pointer != 0 {
        ghost var i := ShardOf(key);
        assert ShardOk(i);
        shards[ShardOf(key)].Forget(key);
        forall j | 0 <= j < SHARDS ensures ShardOk(j) && (j != i ==> shards[j].Map() == old(shards[j].Map())) {
          assert old(ShardOk(j));
        }
      }
    }

    method Store(key: Key, sample: Sample) returns (kept: bool)
      requires Valid() && Lookup(key) == None
      modifies set s | s in shards :: s.cells
      ensures Valid()
      ensures forall k :: Lookup(k) == if kept && k == key then Some(sample) else old(Lookup(k))
      ensures kept <==> old(Room(key))
    {
      hide Ok, Contents, Full;
      ghost var i := ShardOf(key);
      assert ShardOk(i);
      kept := shards[ShardOf(key)].Record(key, sample);
      forall j | 0 <= j < SHARDS ensures ShardOk(j) && (j != i ==> shards[j].Map() == old(shards[j].Map())) {
        assert old(ShardOk(j));
      }
    }

    /** One sampled allocation; an allocation that is not sampled leaves no trace. */
    method Record(key: Key, bytes: nat, sampled: bool) returns (kept: bool)
      requires Valid() && (key.pointer != 0 && sampled ==> Lookup(key) == None)
      modifies this, set s | s in shards :: s.cells
      ensures Valid()
      ensures forall k :: Lookup(k) == if kept && k == key then Some(Sample(bytes, serial)) else old(Lookup(k))
      ensures key.pointer == 0 || !sampled ==> !kept && serial == old(serial) && dropped == old(dropped)
      ensures key.pointer != 0 && sampled ==>
        serial == old(serial) + 1 && dropped == old(dropped) + (if kept then 0 else 1)
      ensures key.pointer != 0 && sampled ==> (kept <==> old(Room(key)))
    {
      hide Ok, Contents, Full, Shard.Valid, ShardOk;
      if key.pointer == 0 || !sampled {
        return false;
      }
      serial := serial + 1;
      kept := Store(key, Sample(bytes, serial));
      if !kept {
        dropped := dropped + 1;
      }
    }

    /**
     * A reallocation that succeeds, or that frees, forgets the old address and may sample the new one;
     * a failed one keeps its sample. `next` is the allocator's answer, 0 for none.
     */
    method Realloc(pointer: nat, bytes: nat, next: nat, sampled: bool) returns (kept: bool)
      requires Valid() && pointer != 0
      requires next != 0 && next != pointer ==> Lookup(Key(next, 0)) == None
      modifies this, set s | s in shards :: s.cells
      ensures Valid()
      ensures next == 0 && bytes != 0 ==> !kept && forall k :: Lookup(k) == old(Lookup(k))
      ensures next != 0 || bytes == 0 ==>
        forall k | k != Key(pointer, 0) && k != Key(next, 0) :: Lookup(k) == old(Lookup(k))
      ensures next != 0 || bytes == 0 ==> (next != pointer ==> Lookup(Key(pointer, 0)) == None)
      ensures next != 0 ==> Lookup(Key(next, 0)) == if kept then Some(Sample(bytes, serial)) else None
      ensures next == 0 || !sampled ==> !kept && serial == old(serial) && dropped == old(dropped)
      ensures next != 0 && sampled ==> serial == old(serial) + 1 && dropped == old(dropped) + (if kept then 0 else 1)
      ensures next != 0 && sampled ==>
        (kept <==>
          || old(Room(Key(next, 0)))
          || (hash(Key(next, 0)) % 32 == hash(Key(pointer, 0)) % 32 && old(Lookup(Key(pointer, 0))).Some?))
    {
      hide Ok, Contents, Full, Shard.Valid, ShardOk;
      if next != 0 || bytes == 0 {
        Forget(Key(pointer, 0));
      }
      kept := Record(Key(next, 0), bytes, sampled && next != 0);
    }

    /** Everything in the table, once, shard after shard. */
    method Snapshot() returns (rows: seq<(Key, Sample)>)
      requires Valid()
      ensures forall k, v :: (k, v) in rows <==> Lookup(k) == Some(v)
      ensures forall i, j | 0 <= i < j < |rows| :: rows[i].0 != rows[j].0
    {
      hide Ok, Contents;
      rows := [];
      for i := 0 to SHARDS
        invariant forall k, v :: (k, v) in rows <==> ShardOf(k) < i && Lookup(k) == Some(v)
        invariant forall a, b | 0 <= a < b < |rows| :: rows[a].0 != rows[b].0
      {
        assert ShardOk(i);
        var more := shards[i].Snapshot();
        ghost var all, next := rows + more, i + 1;
        forall k, v ensures (k, v) in all <==> ShardOf(k) < next && Lookup(k) == Some(v) {
          assert (k, v) in more <==> k in shards[i].Map() && shards[i].Map()[k] == v;
          assert ShardOf(k) == i ==> (Lookup(k) == Some(v) <==> k in shards[i].Map() && shards[i].Map()[k] == v);
        }
        forall a, b | 0 <= a < |rows| && 0 <= b < |more| ensures rows[a].0 != more[b].0 {
          assert (rows[a].0, rows[a].1) in rows && (more[b].0, more[b].1) in more;
        }
        rows := rows + more;
      }
    }
  }
}
