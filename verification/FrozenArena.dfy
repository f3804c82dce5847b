/** Frozen arenas: the slots and request envelopes of a prepared rank, as text and as the reader admits them. */
module FrozenArena {
  import opened Requests
  import opened Counting

  const MAX_ARENA := 0x100_0000_0000
  const MAX_SLOTS := 1000000
  const MAX_MAPPINGS := 10001

  datatype Slot = Slot(offset: nat, bytes: nat)

  datatype Envelope = Envelope(maxRequest: nat, workspace: bool)

  datatype Row = Row(instruction: int, maxRequest: nat, workspace: bool)

  datatype Layout = Layout(fingerprint: nat, backend: nat, bytes: nat, slots: seq<Slot>, workspaceSlot: int,
                           rows: seq<Row>)

  /** What a text is made of, once split at blanks. */
  datatype Word = Tag(text: string) | Num(value: int)

  function End(slots: seq<Slot>, n: nat): nat
    requires n <= |slots|
  {
    if n == 0 then 0 else slots[n - 1].offset + slots[n - 1].bytes
  }

  /** Slots ascend, aligned, without overlap, inside the arena. */
  predicate SlotOk(slots: seq<Slot>, bytes: nat, i: nat)
    requires i < |slots|
  {
    && slots[i].bytes > 0 && slots[i].offset % 512 == 0 && End(slots, i) <= slots[i].offset
    && slots[i].offset + slots[i].bytes <= bytes
  }

  /** The largest slot a request may be served from. */
  function MaxSlot(slots: seq<Slot>, workspaceSlot: int, n: nat): (m: nat)
    requires n <= |slots|
    ensures forall i | 0 <= i < n && i != workspaceSlot :: slots[i].bytes <= m
    ensures m == 0 || exists i | 0 <= i < n && i != workspaceSlot :: slots[i].bytes == m
  {
    if n == 0 then 0
    else
      var m := MaxSlot(slots, workspaceSlot, n - 1);
      if n - 1 != workspaceSlot && slots[n - 1].bytes > m then slots[n - 1].bytes else m
  }

  predicate RowOk(l: Layout, r: Row) {
    && -1 <= r.instruction <= 10000 && r.maxRequest <= MaxSlot(l.slots, l.workspaceSlot, |l.slots|)
    && (r.workspace ==> l.workspaceSlot >= 0) && (r.maxRequest > 0 || r.workspace)
  }

  function Instructions(rows: seq<Row>): seq<int> {
    seq(|rows|, j requires 0 <= j < |rows| => rows[j].instruction)
  }

  ghost predicate Legal(l: Layout) {
    && 0 < l.bytes <= MAX_ARENA && 0 < |l.slots| <= MAX_SLOTS
    && (forall i: nat | i < |l.slots| :: SlotOk(l.slots, l.bytes, i))
    && End(l.slots, |l.slots|) == l.bytes
    && -1 <= l.workspaceSlot <= 0
    && 0 < |l.rows| <= MAX_MAPPINGS && (forall j | 0 <= j < |l.rows| :: RowOk(l, l.rows[j]))
    && NoRepeat(Instructions(l.rows))
    && (l.workspaceSlot >= 0 ==> exists j | 0 <= j < |l.rows| :: l.rows[j].instruction == -1 && l.rows[j].workspace)
  }

  /** Slots are aligned, not empty, apart from one another, and fill the arena to its end. */
  ghost predicate SlotsLie(l: Layout) {
    && 0 < |l.slots| <= 1_000_000 && 0 < l.bytes <= 1024 * 1024 * 1024 * 1024
    && (forall i | 0 <= i < |l.slots| :: l.slots[i].bytes > 0 && l.slots[i].offset % 512 == 0)
    && (forall i, j | 0 <= i < j < |l.slots| :: l.slots[i].offset + l.slots[i].bytes <= l.slots[j].offset)
    && (forall i | 0 <= i < |l.slots| :: l.slots[i].offset + l.slots[i].bytes <= l.bytes)
    && (exists i | 0 <= i < |l.slots| :: l.slots[i].offset + l.slots[i].bytes == l.bytes)
  }

  /** A row asks for the workspace or for something that some other slot holds. */
  ghost predicate RowLies(l: Layout, r: Row) {
    && -1 <= r.instruction <= 10_000
    && (if r.workspace then l.workspaceSlot == 0 else r.maxRequest > 0)
    && (r.maxRequest > 0 ==> exists i | 0 <= i < |l.slots| :: i != l.workspaceSlot && r.maxRequest <= l.slots[i].bytes)
  }

  ghost predicate RowsLie(l: Layout) {
    && 0 < |l.rows| <= 10_001 && (l.workspaceSlot == -1 || l.workspaceSlot == 0)
    && (forall j | 0 <= j < |l.rows| :: RowLies(l, l.rows[j]))
    && (forall i, j | 0 <= i < j < |l.rows| :: l.rows[i].instruction != l.rows[j].instruction)
    && (l.workspaceSlot == 0 ==> exists j | 0 <= j < |l.rows| :: l.rows[j].workspace && l.rows[j].instruction == -1)
  }

  lemma {:induction false} SlotsAscend(l: Layout, i: nat, j: nat)
    requires i < j < |l.slots| && forall k: nat | k < |l.slots| :: SlotOk(l.slots, l.bytes, k)
    ensures l.slots[i].offset + l.slots[i].bytes <= l.slots[j].offset
    decreases j
  {
    assert SlotOk(l.slots, l.bytes, j);
    if i < j - 1 {
      SlotsAscend(l, i, j - 1);
      assert SlotOk(l.slots, l.bytes, j - 1);
    }
  }

  lemma SlotsLegal(l: Layout)
    ensures SlotsLie(l) <==>
      && 0 < l.bytes <= MAX_ARENA && 0 < |l.slots| <= MAX_SLOTS && End(l.slots, |l.slots|) == l.bytes
      && forall i: nat | i < |l.slots| :: SlotOk(l.slots, l.bytes, i)
  {
    var last := |l.slots| - 1;
    if SlotsLie(l) {
      var i :| 0 <= i < |l.slots| && l.slots[i].offset + l.slots[i].bytes == l.bytes;
      forall k: nat | k < |l.slots| ensures SlotOk(l.slots, l.bytes, k) {
        assert k > 0 ==> l.slots[k - 1].offset + l.slots[k - 1].bytes <= l.slots[k].offset;
      }
    }
    if 0 < |l.slots| && forall k: nat | k < |l.slots| :: SlotOk(l.slots, l.bytes, k) {
      forall i: nat, j: nat | i < j < |l.slots| ensures l.slots[i].offset + l.slots[i].bytes <= l.slots[j].offset {
        SlotsAscend(l, i, j);
      }
      forall i: nat | i < |l.slots|
        ensures l.slots[i].bytes > 0 && l.slots[i].offset % 512 == 0
        ensures l.slots[i].offset + l.slots[i].bytes <= l.bytes
      {
        assert SlotOk(l.slots, l.bytes, i);
      }
      assert End(l.slots, |l.slots|) == l.slots[last].offset + l.slots[last].bytes;
    }
  }

  lemma RowLegal(l: Layout, r: Row)
    requires -1 <= l.workspaceSlot <= 0
    ensures RowOk(l, r) <==> RowLies(l, r)
  {
    hide End;
  }

  /** Main: what the reader calls legal, as facts about where the slots lie and what the rows can be served from. */
  lemma LegalMeans(l: Layout)
    ensures Legal(l) <==> SlotsLie(l) && RowsLie(l)
  {
    hide SlotsLie, SlotOk, RowOk, RowLies, End;
    SlotsLegal(l);
    InstructionsApart(l.rows);
    if -1 <= l.workspaceSlot <= 0 {
      forall j | 0 <= j < |l.rows| ensures RowOk(l, l.rows[j]) <==> RowLies(l, l.rows[j]) {
        RowLegal(l, l.rows[j]);
      }
    }
  }

  lemma InstructionsApart(rows: seq<Row>)
    ensures NoRepeat(Instructions(rows)) <==>
      forall i, j | 0 <= i < j < |rows| :: rows[i].instruction != rows[j].instruction
  {
    var all := Instructions(rows);
    if NoRepeat(all) {
      forall i, j | 0 <= i < j < |rows| ensures rows[i].instruction != rows[j].instruction {
        assert all[i] != all[j];
      }
    }
  }

  function Flag(b: bool): int {
    if b then 1 else 0
  }

  function SlotText(slots: seq<Slot>): (t: seq<Word>)
    ensures |t| == 2 * |slots|
    ensures forall i | 0 <= i < |slots| :: t[2 * i] == Num(slots[i].offset) && t[2 * i + 1] == Num(slots[i].bytes)
  {
    if slots == [] then []
    else SlotText(slots[..|slots| - 1]) + [Num(slots[|slots| - 1].offset), Num(slots[|slots| - 1].bytes)]
  }

  function RowText(rows: seq<Row>): (t: seq<Word>)
    ensures |t| == 3 * |rows|
    ensures forall j | 0 <= j < |rows| ::
      t[3 * j] == Num(rows[j].instruction) && t[3 * j + 1] == Num(rows[j].maxRequest)
    ensures forall j | 0 <= j < |rows| :: t[3 * j + 2] == Num(Flag(rows[j].workspace))
  {
    if rows == [] then []
    else
      var r := rows[|rows| - 1];
      RowText(rows[..|rows| - 1]) + [Num(r.instruction), Num(r.maxRequest), Num(Flag(r.workspace))]
  }

  /** The text that stands for a layout. */
  function Text(l: Layout): seq<Word> {
    [Tag("IFARENA2"), Num(l.fingerprint), Num(l.backend), Num(l.bytes), Num(|l.slots|)] + SlotText(l.slots)
    + [Tag("pool"), Num(|l.rows|), Num(l.workspaceSlot)] + RowText(l.rows)
  }

  predicate Natural(t: seq<Word>, i: nat) {
    i < |t| && t[i].Num? && t[i].value >= 0
  }

  /** Word by token, what a text says. */
  ghost predicate Says(t: seq<Word>, l: Layout) {
    && |t| == 8 + 2 * |l.slots| + 3 * |l.rows|
    && t[0] == Tag("IFARENA2") && t[1] == Num(l.fingerprint) && t[2] == Num(l.backend) && t[3] == Num(l.bytes)
    && t[4] == Num(|l.slots|)
    && (forall i: nat | i < |l.slots| :: SlotSaid(t, l, i))
    && t[5 + 2 * |l.slots|] == Tag("pool") && t[6 + 2 * |l.slots|] == Num(|l.rows|)
    && t[7 + 2 * |l.slots|] == Num(l.workspaceSlot)
    && (forall j: nat | j < |l.rows| :: RowSaid(t, l, j))
  }

  ghost predicate SlotSaid(t: seq<Word>, l: Layout, i: nat)
    requires i < |l.slots| && |t| == 8 + 2 * |l.slots| + 3 * |l.rows|
  {
    t[5 + 2 * i] == Num(l.slots[i].offset) && t[6 + 2 * i] == Num(l.slots[i].bytes)
  }

  ghost predicate RowSaid(t: seq<Word>, l: Layout, j: nat)
    requires j < |l.rows| && |t| == 8 + 2 * |l.slots| + 3 * |l.rows|
  {
    var at := 8 + 2 * |l.slots| + 3 * j;
    && t[at] == Num(l.rows[j].instruction) && t[at + 1] == Num(l.rows[j].maxRequest)
    && t[at + 2] == Num(Flag(l.rows[j].workspace))
  }

  lemma TextSays(l: Layout)
    ensures Says(Text(l), l)
  {
    var t, s, r := Text(l), SlotText(l.slots), RowText(l.rows);
    forall i: nat | i < |l.slots| ensures SlotSaid(t, l, i) {
      assert t[5 + 2 * i] == s[2 * i] && t[6 + 2 * i] == s[2 * i + 1];
    }
    forall j: nat | j < |l.rows| ensures RowSaid(t, l, j) {
      var at := 8 + 2 * |l.slots| + 3 * j;
      assert t[at] == r[3 * j] && t[at + 1] == r[3 * j + 1] && t[at + 2] == r[3 * j + 2];
    }
  }

  /** A text says one thing at most. */
  lemma SaysOnce(t: seq<Word>, l: Layout, m: Layout)
    requires Says(t, l) && Says(t, m)
    ensures l == m
  {
    forall i: nat | i < |l.slots| ensures l.slots[i] == m.slots[i] {
      assert SlotSaid(t, l, i) && SlotSaid(t, m, i);
    }
    forall j: nat | j < |l.rows| ensures l.rows[j] == m.rows[j] {
      assert RowSaid(t, l, j) && RowSaid(t, m, j);
    }
    assert l.slots == m.slots && l.rows == m.rows;
  }

  lemma SaysText(t: seq<Word>, l: Layout)
    requires Says(t, l)
    ensures t == Text(l)
  {
    TextSays(l);
    var u := Text(l);
    forall k | 0 <= k < |t| ensures t[k] == u[k] {
      if 5 <= k < 5 + 2 * |l.slots| {
        assert SlotSaid(t, l, (k - 5) / 2) && SlotSaid(u, l, (k - 5) / 2);
      } else if k >= 8 + 2 * |l.slots| {
        var j := (k - 8 - 2 * |l.slots|) / 3;
        assert RowSaid(t, l, j) && RowSaid(u, l, j);
      }
    }
  }

  /** What the caller requires of a layout it reads. */
  ghost predicate Admissible(t: seq<Word>, l: Layout, expected: nat, backend: nat) {
    Legal(l) && l.fingerprint == expected && l.backend == backend && Says(t, l)
  }

  ghost predicate SlotsRead(t: seq<Word>, slots: seq<Slot>, bytes: nat) {
    && |t| >= 5 + 2 * |slots|
    && (forall i: nat | i < |slots| :: SlotIs(t, slots, i) && SlotOk(slots, bytes, i))
  }

  ghost predicate SlotIs(t: seq<Word>, slots: seq<Slot>, i: nat)
    requires i < |slots| && |t| >= 5 + 2 * |slots|
  {
    t[5 + 2 * i] == Num(slots[i].offset) && t[6 + 2 * i] == Num(slots[i].bytes)
  }

  /** Slots read so far are the layout's own. */
  lemma SlotsPrefix(t: seq<Word>, l: Layout, slots: seq<Slot>)
    requires Says(t, l) && SlotsRead(t, slots, l.bytes) && |slots| <= |l.slots|
    ensures slots == l.slots[..|slots|]
  {
    forall i: nat | i < |slots| ensures slots[i] == l.slots[i] {
      assert SlotSaid(t, l, i) && SlotIs(t, slots, i);
    }
  }

  lemma SlotRefused(t: seq<Word>, l: Layout, slots: seq<Slot>, next: Slot)
    requires Says(t, l) && SlotsRead(t, slots, l.bytes) && |slots| < |l.slots|
    requires t[5 + 2 * |slots|] == Num(next.offset) && t[6 + 2 * |slots|] == Num(next.bytes)
    requires !SlotOk(slots + [next], l.bytes, |slots|)
    ensures !Legal(l)
  {
    SlotsPrefix(t, l, slots);
    assert SlotSaid(t, l, |slots|);
    assert l.slots[|slots|] == next;
    assert !SlotOk(l.slots, l.bytes, |slots|);
  }

  lemma SlotTokens(t: seq<Word>, l: Layout, i: nat)
    requires i < |l.slots|
    ensures Says(t, l) ==> Natural(t, 5 + 2 * i) && Natural(t, 6 + 2 * i)
  {
    if Says(t, l) {
      assert SlotSaid(t, l, i);
    }
  }

  method ReadSlots(t: seq<Word>, count: nat, bytes: nat) returns (slots: Option<seq<Slot>>)
    requires |t| >= 5
    ensures slots.Some? ==> |slots.value| == count && SlotsRead(t, slots.value, bytes)
    ensures slots == None ==> forall l | Says(t, l) && |l.slots| == count && l.bytes == bytes :: !Legal(l)
  {
    hide Legal, Says;
    var out: seq<Slot> := [];
    for i := 0 to count
      invariant |out| == i && SlotsRead(t, out, bytes)
    {
      if !Natural(t, 5 + 2 * i) || !Natural(t, 6 + 2 * i) {
        forall l: Layout | |l.slots| == count ensures !Says(t, l) {
          SlotTokens(t, l, i);
        }
        return None;
      }
      var next := Slot(t[5 + 2 * i].value, t[6 + 2 * i].value);
      if !SlotOk(out + [next], bytes, i) {
        forall l | Says(t, l) && |l.slots| == count && l.bytes == bytes ensures !Legal(l) {
          SaysLength(t, l);
          SlotRefused(t, l, out, next);
        }
        return None;
      }
      SlotMore(t, out, next, bytes);
      out := out + [next];
    }
    return Some(out);
  }

  lemma SaysLength(t: seq<Word>, l: Layout)
    requires Says(t, l)
    ensures |t| == 8 + 2 * |l.slots| + 3 * |l.rows|
  {
  }

  lemma SlotMore(t: seq<Word>, slots: seq<Slot>, next: Slot, bytes: nat)
    requires SlotsRead(t, slots, bytes) && |t| > 6 + 2 * |slots| && SlotOk(slots + [next], bytes, |slots|)
    requires t[5 + 2 * |slots|] == Num(next.offset) && t[6 + 2 * |slots|] == Num(next.bytes)
    ensures SlotsRead(t, slots + [next], bytes)
  {
    var more := slots + [next];
    forall i: nat | i < |more| ensures SlotIs(t, more, i) && SlotOk(more, bytes, i) {
      if i < |slots| {
        assert SlotIs(t, slots, i) && SlotOk(slots, bytes, i);
      }
    }
  }

  // ------------------------------------------------------------------- rows

  ghost predicate RowsRead(t: seq<Word>, base: nat, l: Layout) {
    && |t| >= base + 3 * |l.rows|
    && (forall j: nat | j < |l.rows| :: RowIs(t, base, l.rows, j) && RowOk(l, l.rows[j]))
    && NoRepeat(Instructions(l.rows))
  }

  ghost predicate RowIs(t: seq<Word>, base: nat, rows: seq<Row>, j: nat)
    requires j < |rows| && |t| >= base + 3 * |rows|
  {
    t[base + 3 * j] == Num(rows[j].instruction) && t[base + 3 * j + 1] == Num(rows[j].maxRequest)
    && t[base + 3 * j + 2] == Num(Flag(rows[j].workspace))
  }

  /** `l` with the rows read so far in place of its own. */
  function WithRows(l: Layout, rows: seq<Row>): Layout {
    l.(rows := rows)
  }

  lemma RowsPrefix(t: seq<Word>, l: Layout, part: Layout)
    requires Says(t, l) && RowsRead(t, 8 + 2 * |l.slots|, part) && |part.rows| <= |l.rows|
    ensures part.rows == l.rows[..|part.rows|]
  {
    forall j: nat | j < |part.rows| ensures part.rows[j] == l.rows[j] {
      assert RowSaid(t, l, j) && RowIs(t, 8 + 2 * |l.slots|, part.rows, j);
    }
  }

  lemma RowRefused(t: seq<Word>, l: Layout, part: Layout, next: Row)
    requires Says(t, l) && part == WithRows(l, part.rows) && RowsRead(t, 8 + 2 * |l.slots|, part)
    requires |part.rows| < |l.rows|
    requires t[8 + 2 * |l.slots| + 3 * |part.rows|] == Num(next.instruction)
    requires t[8 + 2 * |l.slots| + 3 * |part.rows| + 1] == Num(next.maxRequest)
    requires t[8 + 2 * |l.slots| + 3 * |part.rows| + 2] == Num(Flag(next.workspace))
    requires !RowOk(part, next) || next.instruction in Instructions(part.rows)
    ensures !Legal(l)
  {
    RowsPrefix(t, l, part);
    var n := |part.rows|;
    assert RowSaid(t, l, n);
    assert l.rows[n] == next;
    if next.instruction in Instructions(part.rows) {
      var j :| 0 <= j < n && Instructions(part.rows)[j] == next.instruction;
      assert Instructions(l.rows)[j] == Instructions(l.rows)[n];
    } else {
      assert !RowOk(l, l.rows[n]);
    }
  }

  lemma RowTokens(t: seq<Word>, l: Layout, j: nat)
    requires j < |l.rows|
    ensures var at := 8 + 2 * |l.slots| + 3 * j;
      Says(t, l) ==> at + 2 < |t| && t[at].Num? && Natural(t, at + 1) && t[at + 2].Num? && 0 <= t[at + 2].value <= 1
  {
    if Says(t, l) {
      assert RowSaid(t, l, j);
    }
  }

  lemma RowMore(t: seq<Word>, base: nat, part: Layout, next: Row)
    requires RowsRead(t, base, part) && |t| > base + 3 * |part.rows| + 2
    requires t[base + 3 * |part.rows|] == Num(next.instruction) && t[base + 3 * |part.rows| + 1] == Num(next.maxRequest)
    requires t[base + 3 * |part.rows| + 2] == Num(Flag(next.workspace))
    requires RowOk(part, next) && next.instruction !in Instructions(part.rows)
    ensures RowsRead(t, base, WithRows(part, part.rows + [next]))
  {
    var more := WithRows(part, part.rows + [next]);
    forall j: nat | j < |more.rows| ensures RowIs(t, base, more.rows, j) && RowOk(more, more.rows[j]) {
      if j < |part.rows| {
        assert RowIs(t, base, part.rows, j) && RowOk(part, part.rows[j]);
      }
    }
    var was, now := Instructions(part.rows), Instructions(more.rows);
    forall i, j | 0 <= i < j < |now| ensures now[i] != now[j] {
      assert was[i] in was;
      assert now[i] == was[i] && (j < |was| ==> now[j] == was[j]);
    }
  }

  /** The other fields of a layout being read, as far as the rows. */
  ghost predicate SameHead(l: Layout, head: Layout, count: nat) {
    WithRows(l, []) == WithRows(head, []) && |l.rows| == count
  }

  method ReadRows(t: seq<Word>, head: Layout, count: nat) returns (rows: Option<seq<Row>>)
    requires |t| >= 8 + 2 * |head.slots|
    ensures rows.Some? ==> |t| >= 8 + 2 * |head.slots| + 3 * count
    ensures rows.Some? ==> |rows.value| == count && RowsRead(t, 8 + 2 * |head.slots|, WithRows(head, rows.value))
    ensures rows == None ==> forall l | Says(t, l) && SameHead(l, head, count) :: !Legal(l)
  {
    hide Legal, Says, RowOk;
    var base := 8 + 2 * |head.slots|;
    var out: seq<Row> := [];
    for j := 0 to count
      invariant |out| == j && RowsRead(t, base, WithRows(head, out))
    {
      var at := base + 3 * j;
      if at + 2 >= |t| || !t[at].Num? || !Natural(t, at + 1) || !t[at + 2].Num? || !(0 <= t[at + 2].value <= 1) {
        forall l | SameHead(l, head, count) ensures !Says(t, l) {
          RowTokens(t, l, j);
        }
        return None;
      }
      var next := Row(t[at].value, t[at + 1].value, t[at + 2].value == 1);
      if !RowOk(WithRows(head, out), next) || next.instruction in Instructions(out) {
        forall l | Says(t, l) && SameHead(l, head, count) ensures !Legal(l) {
          assert WithRows(l, out) == WithRows(head, out);
          SaysLength(t, l);
          RowRefused(t, l, WithRows(head, out), next);
        }
        return None;
      }
      RowMore(t, base, WithRows(head, out), next);
      out := out + [next];
    }
    return Some(out);
  }

  lemma SaysHead(t: seq<Word>, l: Layout)
    requires Says(t, l)
    ensures |t| >= 8 && t[0] == Tag("IFARENA2") && Natural(t, 1) && Natural(t, 2) && Natural(t, 3) && Natural(t, 4)
    ensures l.fingerprint == t[1].value && l.backend == t[2].value && l.bytes == t[3].value && |l.slots| == t[4].value
  {
  }

  lemma SaysPool(t: seq<Word>, l: Layout)
    requires Says(t, l)
    ensures var at := 5 + 2 * |l.slots|;
      && |t| >= at + 3 && t[at] == Tag("pool") && Natural(t, at + 1) && t[at + 2].Num? && |l.rows| == t[at + 1].value
      && l.workspaceSlot == t[at + 2].value
  {
  }

  lemma ReadTogether(t: seq<Word>, l: Layout)
    requires SlotsRead(t, l.slots, l.bytes) && RowsRead(t, 8 + 2 * |l.slots|, l)
    requires |t| == 8 + 2 * |l.slots| + 3 * |l.rows|
    requires t[0] == Tag("IFARENA2") && t[1] == Num(l.fingerprint) && t[2] == Num(l.backend) && t[3] == Num(l.bytes)
    requires t[4] == Num(|l.slots|)
    requires t[5 + 2 * |l.slots|] == Tag("pool") && t[6 + 2 * |l.slots|] == Num(|l.rows|)
    requires t[7 + 2 * |l.slots|] == Num(l.workspaceSlot)
    ensures Says(t, l)
  {
    forall i: nat | i < |l.slots| ensures SlotSaid(t, l, i) {
      assert SlotIs(t, l.slots, i);
    }
    forall j: nat | j < |l.rows| ensures RowSaid(t, l, j) {
      assert RowIs(t, 8 + 2 * |l.slots|, l.rows, j);
    }
  }

  /** The reader accepts exactly the texts of legal layouts for this program and backend, and returns what they say. */
  method Read(t: seq<Word>, expected: nat, backend: nat) returns (r: Option<Layout>)
    ensures forall l :: r == Some(l) <==> Legal(l) && l.fingerprint == expected && l.backend == backend && t == Text(l)
  {
    r := Parse(t, expected, backend);
    forall l ensures r == Some(l) <==> Legal(l) && l.fingerprint == expected && l.backend == backend && t == Text(l) {
      if r == Some(l) {
        SaysText(t, l);
      }
      if t == Text(l) {
        TextSays(l);
      }
    }
  }

  method Parse(t: seq<Word>, expected: nat, backend: nat) returns (r: Option<Layout>)
    ensures forall l :: r == Some(l) <==> Admissible(t, l, expected, backend)
  {
    hide Says, SlotsRead, RowsRead, SlotOk, RowOk, MaxSlot;
    forall l | Admissible(t, l, expected, backend)
      ensures |t| >= 8 && t[0] == Tag("IFARENA2") && Natural(t, 1) && Natural(t, 2) && Natural(t, 3) && Natural(t, 4)
      ensures l.fingerprint == t[1].value && l.backend == t[2].value && l.bytes == t[3].value && |l.slots| == t[4].value
    {
      SaysHead(t, l);
    }
    if |t| < 8 || t[0] != Tag("IFARENA2") || !Natural(t, 1) || !Natural(t, 2) || !Natural(t, 3) || !Natural(t, 4) {
      return None;
    }
    var bytes: nat, count: nat := t[3].value, t[4].value;
    if t[1].value != expected || t[2].value != backend || !(0 < bytes <= MAX_ARENA) || !(0 < count <= MAX_SLOTS) {
      return None;
    }
    var slots := ReadSlots(t, count, bytes);
    if slots == None {
      return None;
    }
    var at := 5 + 2 * count;
    forall l | Admissible(t, l, expected, backend)
      ensures l.slots == slots.value
      ensures |t| >= at + 3 && t[at] == Tag("pool") && Natural(t, at + 1) && t[at + 2].Num?
      ensures |l.rows| == t[at + 1].value && l.workspaceSlot == t[at + 2].value
    {
      SaysPool(t, l);
      SlotsPrefix(t, l, slots.value);
    }
    if |t| < at + 3 || t[at] != Tag("pool") || !Natural(t, at + 1) || !t[at + 2].Num? {
      return None;
    }
    var mappings: nat, workspaceSlot := t[at + 1].value, t[at + 2].value;
    if !(0 < mappings <= MAX_MAPPINGS) || !(-1 <= workspaceSlot <= 0) {
      return None;
    }
    var head := Layout(expected, backend, bytes, slots.value, workspaceSlot, []);
    var rows := ReadRows(t, head, mappings);
    if rows == None {
      return None;
    }
    var l := WithRows(head, rows.value);
    r := Finish(t, l);
    forall m ensures r == Some(m) <==> Admissible(t, m, expected, backend) {
      if Admissible(t, m, expected, backend) {
        SaysLength(t, m);
        RowsPrefix(t, m, l);
        assert m == l;
      }
    }
  }

  /** The checks that need all rows: the workspace's first user, nothing behind, and the extent. */
  method Finish(t: seq<Word>, l: Layout) returns (r: Option<Layout>)
    requires |t| >= 8 && SlotsRead(t, l.slots, l.bytes) && RowsRead(t, 8 + 2 * |l.slots|, l)
    requires |t| >= 8 + 2 * |l.slots| + 3 * |l.rows|
    requires t[0] == Tag("IFARENA2") && t[1] == Num(l.fingerprint) && t[2] == Num(l.backend) && t[3] == Num(l.bytes)
    requires t[4] == Num(|l.slots|)
    requires t[5 + 2 * |l.slots|] == Tag("pool") && t[6 + 2 * |l.slots|] == Num(|l.rows|)
    requires t[7 + 2 * |l.slots|] == Num(l.workspaceSlot)
    requires 0 < l.bytes <= MAX_ARENA && 0 < |l.slots| <= MAX_SLOTS && 0 < |l.rows| <= MAX_MAPPINGS
    requires -1 <= l.workspaceSlot <= 0
    ensures r == if Legal(l) && Says(t, l) then Some(l) else None
  {
    hide RowOk, SlotOk;
    var first := exists j | 0 <= j < |l.rows| :: l.rows[j].instruction == -1 && l.rows[j].workspace;
    if l.workspaceSlot >= 0 && !first {
      return None;
    }
    if |t| != 8 + 2 * |l.slots| + 3 * |l.rows| {
      return None;
    }
    ReadTogether(t, l);
    return if End(l.slots, |l.slots|) == l.bytes then Some(l) else None;
  }
}
