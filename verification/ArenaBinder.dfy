/** Binding an audited preparation to a pooled arena: request envelopes instead of observed slots. */
module ArenaBinder {
  import opened Requests
  import opened Counting
  import opened FrozenArena

  /** The slots one instruction was seen to lease. */
  datatype Observation = Observation(instruction: int, slots: seq<nat>)

  /** A preparation audit: its slots, who leased them, and the permanent workspace if there is one. */
  datatype Audit = Audit(
    program: nat, backend: nat, bytes: nat, ids: seq<nat>, slots: seq<Slot>, observed: seq<Observation>,
    plannedBytes: nat, workspaceSlot: Option<nat>, workspaceUsers: set<int>)

  function WorkspaceIndex(a: Audit): int {
    match a.workspaceSlot case Some(s) => s case None => -1
  }

  predicate InRange(a: Audit, slots: seq<nat>) {
    forall k | 0 <= k < |slots| :: slots[k] < |a.slots|
  }

  /** Every observation names slots of the audit, and there is one an instruction. */
  ghost predicate Observed(a: Audit) {
    && |a.ids| == |a.slots| && (forall o | o in a.observed :: InRange(a, o.slots))
    && (forall i, j | 0 <= i < j < |a.observed| :: a.observed[i].instruction != a.observed[j].instruction)
  }

  /** The largest observed slot that is not the workspace. */
  function Ceiling(a: Audit, slots: seq<nat>): (m: nat)
    requires InRange(a, slots)
    ensures forall k | 0 <= k < |slots| && slots[k] != WorkspaceIndex(a) :: a.slots[slots[k]].bytes <= m
    ensures m == 0 || exists k | 0 <= k < |slots| && slots[k] != WorkspaceIndex(a) :: a.slots[slots[k]].bytes == m
  {
    if slots == [] then 0
    else
      var n := |slots| - 1;
      var m := Ceiling(a, slots[..n]);
      if slots[n] != WorkspaceIndex(a) && a.slots[slots[n]].bytes > m then a.slots[slots[n]].bytes else m
  }

  function EnvelopeRow(a: Audit, o: Observation): (r: Row)
    requires InRange(a, o.slots)
    ensures r.instruction == o.instruction
  {
    Row(o.instruction, Ceiling(a, o.slots), a.workspaceSlot.Some? && a.workspaceSlot.value in o.slots)
  }

  ghost predicate AuditSlot(a: Audit, i: nat)
    requires i < |a.slots| == |a.ids|
  {
    a.ids[i] == i && a.slots[i].offset % 512 == 0 && End(a.slots, i) <= a.slots[i].offset && a.slots[i].bytes > 0
  }

  ghost predicate Leases(a: Audit, instruction: int, slot: nat) {
    exists o | o in a.observed :: o.instruction == instruction && slot in o.slots
  }

  /** What is checked before anything is written. */
  ghost predicate AuditOk(a: Audit) {
    && (a.plannedBytes > 0 ==>
          && a.workspaceSlot == Some(0) && |a.slots| > 0 && a.slots[0].bytes == a.plannedBytes
          && forall i | i in a.workspaceUsers :: Leases(a, i, 0))
    && (a.plannedBytes == 0 ==> a.workspaceSlot == None)
    && |a.ids| == |a.slots| > 0 && (forall i: nat | i < |a.slots| :: AuditSlot(a, i))
    && End(a.slots, |a.slots|) == a.bytes <= MAX_ARENA
  }

  predicate Ascending(rows: seq<Row>) {
    forall i, j | 0 <= i < j < |rows| :: rows[i].instruction < rows[j].instruction
  }

  /** Puts one more row where it belongs. */
  method Insert(rows: seq<Row>, r: Row) returns (more: seq<Row>)
    requires Ascending(rows) && forall x | x in rows :: x.instruction != r.instruction
    ensures Ascending(more) && |more| == |rows| + 1
    ensures forall x :: x in more <==> x in rows || x == r
  {
    var at: nat := |rows|;
    while at > 0 && rows[at - 1].instruction > r.instruction
      invariant at <= |rows|
      invariant forall i | at <= i < |rows| :: rows[i].instruction > r.instruction
    {
      at := at - 1;
    }
    assert forall i | 0 <= i < |rows| :: rows[i] in rows;
    InsertAt(rows, at, r);
    more := rows[..at] + [r] + rows[at..];
  }

  lemma InsertAt(rows: seq<Row>, at: nat, r: Row)
    requires Ascending(rows) && at <= |rows|
    requires forall i | 0 <= i < at :: rows[i].instruction < r.instruction
    requires forall i | at <= i < |rows| :: rows[i].instruction > r.instruction
    ensures var more := rows[..at] + [r] + rows[at..];
      Ascending(more) && forall x :: x in more <==> x in rows || x == r
  {
    var more := rows[..at] + [r] + rows[at..];
    forall i | 0 <= i < |more| ensures more[i] == if i < at then rows[i] else if i == at then r else rows[i - 1] {
    }
    forall x | x in rows ensures x in more {
      var i :| 0 <= i < |rows| && rows[i] == x;
      assert more[if i < at then i else i + 1] == x;
    }
    assert more[at] == r;
  }

  ghost predicate BoundTo(a: Audit, l: Layout)
    requires Observed(a)
  {
    && l.fingerprint == a.program && l.backend == a.backend && l.bytes == a.bytes && l.slots == a.slots
    && l.workspaceSlot == WorkspaceIndex(a)
    && RowsOf(a, a.observed, l.rows) && NoRepeat(Instructions(l.rows))
  }

  /** The rows of these observations, in some order. */
  ghost predicate RowsOf(a: Audit, observed: seq<Observation>, rows: seq<Row>)
    requires forall o | o in observed :: InRange(a, o.slots)
  {
    && |rows| == |observed|
    && (forall r | r in rows :: exists o | o in observed :: r == EnvelopeRow(a, o))
    && (forall o | o in observed :: EnvelopeRow(a, o) in rows)
  }

  lemma RowsMore(a: Audit, n: nat, rows: seq<Row>, more: seq<Row>)
    requires Observed(a) && n < |a.observed| && RowsOf(a, a.observed[..n], rows)
    requires |more| == |rows| + 1 && forall x :: x in more <==> x in rows || x == EnvelopeRow(a, a.observed[n])
    ensures RowsOf(a, a.observed[..n + 1], more)
  {
    hide EnvelopeRow;
    forall o ensures o in a.observed[..n + 1] <==> o in a.observed[..n] || o == a.observed[n] {
      assert a.observed[..n + 1] == a.observed[..n] + [a.observed[n]];
    }
  }

  /** An observation not yet written has an instruction not yet written. */
  lemma RowIsNew(a: Audit, n: nat, rows: seq<Row>)
    requires Observed(a) && n < |a.observed| && RowsOf(a, a.observed[..n], rows)
    ensures forall r | r in rows :: r.instruction != a.observed[n].instruction
  {
    forall r | r in rows ensures r.instruction != a.observed[n].instruction {
      var o :| o in a.observed[..n] && InRange(a, o.slots) && r == EnvelopeRow(a, o);
    }
  }

  /** What the form of an audit gives: a slot has an id, an instruction one entry. */
  ghost predicate Wellformed(a: Audit) {
    && |a.ids| == |a.slots|
    && (forall i, j | 0 <= i < j < |a.observed| :: a.observed[i].instruction != a.observed[j].instruction)
  }

  /** The checks on one audit: its workspace first, then slot by slot. */
  method CheckAudit(a: Audit) returns (ok: bool)
    requires Wellformed(a)
    ensures ok <==> AuditOk(a)
  {
    if a.plannedBytes > 0 {
      if a.workspaceSlot != Some(0) || a.slots == [] || a.slots[0].bytes != a.plannedBytes {
        return false;
      }
      if exists i | i in a.workspaceUsers :: !exists o | o in a.observed :: o.instruction == i && 0 in o.slots {
        return false;
      }
    } else if a.workspaceSlot != None {
      return false;
    }
    var end := 0;
    for i := 0 to |a.slots|
      invariant end == End(a.slots, i) && (i > 0 ==> end > 0)
      invariant forall k: nat | k < i :: AuditSlot(a, k)
    {
      var slot := a.slots[i];
      if a.ids[i] != i || slot.offset % 512 != 0 || slot.offset < end || slot.bytes == 0 {
        assert !AuditSlot(a, i);
        return false;
      }
      end := slot.offset + slot.bytes;
    }
    return end != 0 && end == a.bytes && end <= 1024 * 1024 * 1024 * 1024;
  }

  /** Every observed slot is one of the audit's. */
  method CheckObserved(a: Audit) returns (ok: bool)
    requires Wellformed(a)
    ensures ok <==> Observed(a)
  {
    for j := 0 to |a.observed|
      invariant forall k | 0 <= k < j :: InRange(a, a.observed[k].slots)
    {
      if exists k | 0 <= k < |a.observed[j].slots| :: a.observed[j].slots[k] >= |a.slots| {
        assert a.observed[j] in a.observed;
        return false;
      }
    }
    return true;
  }

  /** The binder: refuses exactly the audits that do not pass, and otherwise gives the layout to be written. */
  method Bind(a: Audit) returns (l: Option<Layout>)
    requires Wellformed(a)
    ensures l.Some? <==> Observed(a) && AuditOk(a)
    ensures l.Some? ==> BoundTo(a, l.value) && Ascending(l.value.rows)
  {
    hide AuditOk, Observed, BoundTo;
    var ok := CheckAudit(a);
    if !ok {
      return None;
    }
    ok := CheckObserved(a);
    if !ok {
      return None;
    }
    var layout := Envelopes(a);
    return Some(layout);
  }

  /** The layout that is written out. */
  method Envelopes(a: Audit) returns (l: Layout)
    requires Observed(a) && AuditOk(a)
    ensures BoundTo(a, l) && Ascending(l.rows)
  {
    hide EnvelopeRow, AuditOk;
    var rows: seq<Row> := [];
    for j := 0 to |a.observed|
      invariant RowsOf(a, a.observed[..j], rows) && Ascending(rows)
    {
      assert a.observed[j] in a.observed;
      RowIsNew(a, j, rows);
      var more := Insert(rows, EnvelopeRow(a, a.observed[j]));
      RowsMore(a, j, rows, more);
      rows := more;
    }
    assert a.observed[..|a.observed|] == a.observed;
    l := Layout(a.program, a.backend, a.bytes, a.slots, WorkspaceIndex(a), rows);
  }

  /** What the reader asks for on top of what the binder checks. */
  ghost predicate WithinLimits(a: Audit) {
    && |a.slots| <= MAX_SLOTS && 0 < |a.observed| <= MAX_MAPPINGS
    && (forall o | o in a.observed :: -1 <= o.instruction <= 10000 && o.slots != [])
    && (a.workspaceSlot.Some? ==> Leases(a, -1, a.workspaceSlot.value))
  }

  lemma RowIsOk(a: Audit, l: Layout, o: Observation)
    requires Observed(a) && AuditOk(a) && BoundTo(a, l) && o in a.observed
    ensures RowOk(l, EnvelopeRow(a, o)) <==> -1 <= o.instruction <= 10000 && o.slots != []
  {
    hide AuditSlot, End, RowsOf;
    var slots, r := o.slots, EnvelopeRow(a, o);
    if r.maxRequest > 0 {
      var k :| 0 <= k < |slots| && slots[k] != WorkspaceIndex(a) && a.slots[slots[k]].bytes == r.maxRequest;
      assert l.slots[slots[k]].bytes <= MaxSlot(l.slots, l.workspaceSlot, |l.slots|);
    }
    if slots != [] && !r.workspace {
      assert slots[0] in slots && slots[0] != WorkspaceIndex(a);
      AuditSlotOk(a, slots[0]);
    }
  }

  /** A bound audit is legal to the reader exactly within its limits. */
  lemma LegalIff(a: Audit, l: Layout)
    requires Observed(a) && AuditOk(a) && BoundTo(a, l)
    ensures Legal(l) <==> WithinLimits(a)
  {
    hide EnvelopeRow, RowOk, AuditSlot, RowsOf;
    SlotsOk(a);
    RowsLegal(a, l);
    WorkspaceRow(a, l);
  }

  lemma SlotsOk(a: Audit)
    requires Observed(a) && AuditOk(a)
    ensures forall i: nat | i < |a.slots| :: SlotOk(a.slots, a.bytes, i)
    ensures a.bytes > 0 && -1 <= WorkspaceIndex(a) <= 0
  {
    hide AuditSlot, Observed;
    forall i: nat | i < |a.slots| ensures SlotOk(a.slots, a.bytes, i) {
      EndGrows(a, i + 1);
      AuditSlotOk(a, i);
    }
    AuditSlotOk(a, |a.slots| - 1);
  }

  lemma {:induction false} EndGrows(a: Audit, i: nat)
    requires AuditOk(a) && i <= |a.slots|
    ensures End(a.slots, i) <= a.bytes
    decreases |a.slots| - i
  {
    hide AuditSlot;
    if i < |a.slots| {
      EndGrows(a, i + 1);
      AuditSlotOk(a, i);
    }
  }

  lemma AuditSlotOk(a: Audit, i: nat)
    requires i < |a.slots| == |a.ids| && AuditSlot(a, i)
    ensures a.slots[i].offset % 512 == 0 && End(a.slots, i) <= a.slots[i].offset && a.slots[i].bytes > 0
    ensures End(a.slots, i + 1) == a.slots[i].offset + a.slots[i].bytes
  {
  }

  lemma RowsLegal(a: Audit, l: Layout)
    requires Observed(a) && AuditOk(a) && BoundTo(a, l)
    ensures |l.rows| == |a.observed|
    ensures (forall j | 0 <= j < |l.rows| :: RowOk(l, l.rows[j])) <==>
      (forall o | o in a.observed :: -1 <= o.instruction <= 10000 && o.slots != [])
  {
    hide EnvelopeRow, RowOk, AuditOk;
    forall o | o in a.observed ensures RowOk(l, EnvelopeRow(a, o)) <==> -1 <= o.instruction <= 10000 && o.slots != [] {
      RowIsOk(a, l, o);
    }
    if forall j | 0 <= j < |l.rows| :: RowOk(l, l.rows[j]) {
      forall o | o in a.observed ensures -1 <= o.instruction <= 10000 && o.slots != [] {
        assert EnvelopeRow(a, o) in l.rows;
      }
    }
    if forall o | o in a.observed :: -1 <= o.instruction <= 10000 && o.slots != [] {
      forall j | 0 <= j < |l.rows| ensures RowOk(l, l.rows[j]) {
        assert l.rows[j] in l.rows;
      }
    }
  }

  lemma WorkspaceRow(a: Audit, l: Layout)
    requires Observed(a) && AuditOk(a) && BoundTo(a, l)
    ensures (exists j | 0 <= j < |l.rows| :: l.rows[j].instruction == -1 && l.rows[j].workspace)
      <==> a.workspaceSlot.Some? && Leases(a, -1, a.workspaceSlot.value)
  {
    hide AuditOk, Ceiling;
    if j :| 0 <= j < |l.rows| && l.rows[j].instruction == -1 && l.rows[j].workspace {
      assert l.rows[j] in l.rows;
    }
    if a.workspaceSlot.Some? && Leases(a, -1, a.workspaceSlot.value) {
      var o :| o in a.observed && o.instruction == -1 && a.workspaceSlot.value in o.slots;
      assert EnvelopeRow(a, o) in l.rows;
    }
  }

  /** Main: the reader takes the bound text within its limits, and only there, and gives the layout back. */
  method BindAndRead(a: Audit) returns (l: Option<Layout>, r: Option<Layout>)
    requires Wellformed(a)
    ensures l.Some? <==> Observed(a) && AuditOk(a)
    ensures l.Some? ==> BoundTo(a, l.value)
    ensures r == if l.Some? && WithinLimits(a) then l else None
  {
    hide AuditOk, Observed, BoundTo, WithinLimits, Legal;
    l := Bind(a);
    if l == None {
      return l, None;
    }
    var t := Text(l.value);
    r := Read(t, a.program, a.backend);
    BoundFor(a, l.value);
    LegalIff(a, l.value);
    if r.Some? {
      TextSays(l.value);
      TextSays(r.value);
      SaysOnce(t, l.value, r.value);
    }
  }

  lemma BoundFor(a: Audit, l: Layout)
    requires Observed(a) && BoundTo(a, l)
    ensures l.fingerprint == a.program && l.backend == a.backend
  {
    hide RowsOf;
  }

  // ------------------------------------------------------------ permissions

  function Lookup(rows: seq<Row>, instruction: int): Option<Row> {
    if rows == [] then None
    else if rows[|rows| - 1].instruction == instruction then Some(rows[|rows| - 1])
    else Lookup(rows[..|rows| - 1], instruction)
  }

  function PermitsSlot(l: Layout, instruction: int, slot: nat): bool {
    match Lookup(l.rows, instruction)
    case None => false
    case Some(r) => if slot == l.workspaceSlot then r.workspace else r.maxRequest > 0
  }

  function PermitsRequest(l: Layout, instruction: int, bytes: nat, workspace: bool): bool {
    match Lookup(l.rows, instruction)
    case None => false
    case Some(r) =>
      if workspace then
        && instruction == -1 && r.workspace && 0 <= l.workspaceSlot < |l.slots|
        && bytes == l.slots[l.workspaceSlot].bytes
      else 0 < bytes <= r.maxRequest
  }

  lemma {:induction false} LookupFinds(rows: seq<Row>, j: nat)
    requires j < |rows| && NoRepeat(Instructions(rows))
    ensures Lookup(rows, rows[j].instruction) == Some(rows[j])
    decreases |rows|
  {
    var n := |rows| - 1;
    var all := Instructions(rows);
    if j < n {
      assert all[j] != all[n];
      var front := Instructions(rows[..n]);
      forall i, k | 0 <= i < k < n ensures front[i] != front[k] {
        assert front[i] == all[i] && front[k] == all[k];
      }
      LookupFinds(rows[..n], j);
    }
  }

  /** Relaxing slots to envelopes never takes away a lease that preparation observed. */
  lemma ObservedStaysPermitted(a: Audit, l: Layout, o: Observation, k: nat, bytes: nat)
    requires Observed(a) && AuditOk(a) && BoundTo(a, l) && o in a.observed && k < |o.slots|
    requires o.slots[k] < |a.slots| && 0 < bytes <= a.slots[o.slots[k]].bytes
    ensures PermitsSlot(l, o.instruction, o.slots[k])
    ensures o.slots[k] != WorkspaceIndex(a) ==> PermitsRequest(l, o.instruction, bytes, false)
    ensures o.slots[k] == WorkspaceIndex(a) && o.instruction == -1 ==> PermitsRequest(l, -1, a.plannedBytes, true)
  {
    hide AuditSlot;
    assert EnvelopeRow(a, o) in l.rows;
    var j :| 0 <= j < |l.rows| && l.rows[j] == EnvelopeRow(a, o);
    LookupFinds(l.rows, j);
    assert o.slots[k] in o.slots;
  }

  /** A slot the instruction was seen to lease, other than the workspace. */
  ghost predicate SeenWith(a: Audit, instruction: int, slot: nat) {
    slot < |a.slots| && slot != WorkspaceIndex(a) && Leases(a, instruction, slot)
  }

  /** The row that answers for an instruction is the envelope of its one observation. */
  lemma LookupIsEnvelope(a: Audit, l: Layout, instruction: int)
    requires Observed(a) && BoundTo(a, l)
    ensures forall o | o in a.observed && o.instruction == instruction ::
      Lookup(l.rows, instruction) == Some(EnvelopeRow(a, o))
    ensures Lookup(l.rows, instruction).Some? ==> exists o :: o in a.observed && o.instruction == instruction
    ensures forall o, u | o in a.observed && u in a.observed && o.instruction == u.instruction :: o == u
  {
    hide Ceiling;
    forall o | o in a.observed && o.instruction == instruction
      ensures Lookup(l.rows, instruction) == Some(EnvelopeRow(a, o))
    {
      assert EnvelopeRow(a, o) in l.rows;
      var j :| 0 <= j < |l.rows| && l.rows[j] == EnvelopeRow(a, o);
      LookupFinds(l.rows, j);
    }
    LookupIn(l.rows, instruction);
    forall o, u | o in a.observed && u in a.observed && o.instruction == u.instruction ensures o == u {
      var i :| 0 <= i < |a.observed| && a.observed[i] == o;
      var j :| 0 <= j < |a.observed| && a.observed[j] == u;
      assert i == j;
    }
  }

  lemma {:induction false} LookupIn(rows: seq<Row>, instruction: int)
    ensures Lookup(rows, instruction).Some? ==>
      Lookup(rows, instruction).value in rows && Lookup(rows, instruction).value.instruction == instruction
    decreases |rows|
  {
    if rows != [] && rows[|rows| - 1].instruction != instruction {
      LookupIn(rows[..|rows| - 1], instruction);
    }
  }

  lemma SeenIsLeased(a: Audit, o: Observation, slot: nat)
    requires Observed(a) && o in a.observed && forall u | u in a.observed && u.instruction == o.instruction :: u == o
    ensures Leases(a, o.instruction, slot) <==> slot in o.slots
  {
  }

  /** Some slot this instruction was seen to lease holds that many bytes. */
  ghost predicate Explained(a: Audit, instruction: int, bytes: nat) {
    exists s: nat :: SeenWith(a, instruction, s) && bytes <= a.slots[s].bytes
  }

  lemma NeverSeen(a: Audit, instruction: int)
    requires forall o | o in a.observed :: o.instruction != instruction
    ensures !Explained(a, instruction, 0) && forall s: nat :: !Leases(a, instruction, s)
  {
  }

  lemma EnvelopeExplained(a: Audit, o: Observation, bytes: nat)
    requires Observed(a) && AuditOk(a) && o in a.observed
    requires forall u | u in a.observed && u.instruction == o.instruction :: u == o
    ensures InRange(a, o.slots)
    ensures bytes <= EnvelopeRow(a, o).maxRequest && bytes > 0 ==> Explained(a, o.instruction, bytes)
    ensures Explained(a, o.instruction, bytes) ==>
      0 < EnvelopeRow(a, o).maxRequest && bytes <= EnvelopeRow(a, o).maxRequest
  {
    hide AuditSlot, AuditOk, Leases;
    var m := Ceiling(a, o.slots);
    if m > 0 {
      var k :| 0 <= k < |o.slots| && o.slots[k] != WorkspaceIndex(a) && a.slots[o.slots[k]].bytes == m;
      SeenIsLeased(a, o, o.slots[k]);
      assert SeenWith(a, o.instruction, o.slots[k]);
    }
    if Explained(a, o.instruction, bytes) {
      var s: nat :| SeenWith(a, o.instruction, s) && bytes <= a.slots[s].bytes;
      SeenIsLeased(a, o, s);
      SlotNotEmpty(a, s);
    }
  }

  lemma SlotNotEmpty(a: Audit, s: nat)
    requires AuditOk(a) && s < |a.slots|
    ensures a.slots[s].bytes > 0
  {
    hide Leases;
    AuditSlotOk(a, s);
  }

  lemma ExplainedLess(a: Audit, instruction: int, bytes: nat)
    requires Explained(a, instruction, bytes)
    ensures Explained(a, instruction, 0)
  {
  }

  /**
   Main: an envelope permits what its observations explain and nothing else: a request no larger than some slot the
   instruction was seen to lease.
   */
  lemma RequestPermittedIff(a: Audit, l: Layout, instruction: int, bytes: nat)
    requires Observed(a) && AuditOk(a) && BoundTo(a, l)
    ensures PermitsRequest(l, instruction, bytes, false) <==> bytes > 0 && Explained(a, instruction, bytes)
  {
    hide AuditOk, BoundTo, Observed, EnvelopeRow, Leases, Explained, Lookup;
    LookupIsEnvelope(a, l, instruction);
    if o :| o in a.observed && o.instruction == instruction {
      EnvelopeExplained(a, o, bytes);
    } else {
      NeverSeen(a, instruction);
      if Explained(a, instruction, bytes) {
        ExplainedLess(a, instruction, bytes);
      }
    }
  }

  /** Any slot of the audit may be leased by whoever leased one, the workspace by whoever leased that. */
  lemma SlotPermittedIff(a: Audit, l: Layout, instruction: int, slot: nat)
    requires Observed(a) && AuditOk(a) && BoundTo(a, l)
    ensures PermitsSlot(l, instruction, slot) <==>
      if a.workspaceSlot == Some(slot) then Leases(a, instruction, slot) else Explained(a, instruction, 0)
  {
    hide AuditOk, BoundTo, Observed, Ceiling, Leases, Explained, Lookup;
    LookupIsEnvelope(a, l, instruction);
    BoundWorkspace(a, l);
    if o :| o in a.observed && o.instruction == instruction {
      EnvelopeExplained(a, o, 0);
      EnvelopeExplained(a, o, EnvelopeRow(a, o).maxRequest);
      if EnvelopeRow(a, o).maxRequest > 0 {
        ExplainedLess(a, instruction, EnvelopeRow(a, o).maxRequest);
      }
      SeenIsLeased(a, o, slot);
    } else {
      NeverSeen(a, instruction);
    }
  }

  lemma BoundWorkspace(a: Audit, l: Layout)
    requires Observed(a) && BoundTo(a, l)
    ensures l.workspaceSlot == WorkspaceIndex(a) && l.slots == a.slots
  {
    hide RowsOf;
  }

  /** The workspace as such is for the instruction that plans it, in its exact size. */
  lemma WorkspacePermittedIff(a: Audit, l: Layout, instruction: int, bytes: nat)
    requires Observed(a) && AuditOk(a) && BoundTo(a, l)
    ensures PermitsRequest(l, instruction, bytes, true) <==>
      && instruction == -1 && a.workspaceSlot == Some(0) && Leases(a, -1, 0)
      && |a.slots| > 0 && bytes == a.slots[0].bytes
  {
    WorkspaceInside(a);
    hide AuditOk, BoundTo, Observed, Ceiling, Leases, Lookup;
    LookupIsEnvelope(a, l, instruction);
    BoundWorkspace(a, l);
    if o :| o in a.observed && o.instruction == instruction {
      SeenIsLeased(a, o, 0);
    } else {
      NeverSeen(a, instruction);
    }
  }

  lemma WorkspaceInside(a: Audit)
    requires AuditOk(a)
    ensures a.workspaceSlot.Some? ==> a.workspaceSlot == Some(0) && |a.slots| > 0
  {
  }
}
