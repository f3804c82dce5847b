/** The batched scheduler's submissions: what goes into one, and what is owed to its members afterwards. */
module Batching {
  import opened Arith
  import opened Requests
  import opened ServiceState
  import opened Residents
  import opened Rotation
  import Prefixes
  import SequenceBatch

  datatype BatchInput = BatchInput(resident: nat, position: nat, tokens: seq<Token>, sample: bool)

  /** The tokens a resident consumes next: a piece of its prompt, or its last sample. */
  ghost predicate NextTokens(st: Stream, r: Running, tokens: seq<Token>) {
    && tokens != []
    && (if r.position < |st.request.prompt|
        then r.position + |tokens| <= |st.request.prompt|
             && tokens == st.request.prompt[r.position..r.position + |tokens|]
        else r.next.Some? && tokens == [r.next.value])
  }

  ghost predicate InputOk(c: Config, w: World, slots: seq<Option<Running>>, b: BatchInput) {
    && b.resident < |slots| && slots[b.resident].Some?
    && slots[b.resident].value.job < |w.streams|
    && var r := slots[b.resident].value; var st := w.streams[r.job];
    && st.Room() && b.position == r.position && NextTokens(st, r, b.tokens)
    && (b.sample <==> r.position + |b.tokens| >= |st.request.prompt|)
    && (r.position < |st.request.prompt| ==>
          c.shape.Valid() && |b.tokens| == Prefixes.BatchWidth(c.shape, r.position, |st.request.prompt|))
  }

  ghost predicate InputsOk(c: Config, w: World, slots: seq<Option<Running>>, inputs: seq<BatchInput>) {
    forall k | 0 <= k < |inputs| :: InputOk(c, w, slots, inputs[k])
  }

  ghost predicate DistinctResidents(inputs: seq<BatchInput>) {
    forall j, k | 0 <= j < k < |inputs| :: inputs[j].resident != inputs[k].resident
  }

  function SliceOf(b: BatchInput): SequenceBatch.Slice {
    SequenceBatch.Slice(b.resident, b.position, |b.tokens|, b.sample)
  }

  function Slices(inputs: seq<BatchInput>): (s: seq<SequenceBatch.Slice>)
    ensures |s| == |inputs| && forall k | 0 <= k < |inputs| :: s[k] == SliceOf(inputs[k])
  {
    seq(|inputs|, k requires 0 <= k < |inputs| => SliceOf(inputs[k]))
  }

  /** A resident that has not ended has tokens left to generate. */
  lemma UnfinishedHasTokensLeft(c: Config, st: Stream, p: Place, open: bool, r: Running, history: seq<Token>)
    requires StreamOk(c, st, p, open) && p.Resident? && RunningOk(c, st, r, history, 0)
    ensures r.generated < st.request.maxTokens
  {
    if r.generated > 0 {
      var last := r.generated - 1;
      assert !Ended(st.sent);
      assert st.sent[last] == Expected(c.model, st.request, st.cached, last);
    }
  }

  /** Every member stays within the context the backend admitted its request for. */
  lemma InputFitsContext(c: Config, w: World, slots: seq<Option<Running>>, place: seq<Place>,
                         engine: seq<seq<Token>>, b: BatchInput)
    requires WorldOk(c, w, slots, place) && |engine| == |slots| && InputOk(c, w, slots, b)
    requires SlotOk(c, w, slots, engine, b.resident)
    ensures b.position + |b.tokens| <= c.context
  {
    var r := slots[b.resident].value;
    var st := w.streams[r.job];
    assert place[r.job] == Resident(b.resident);
    assert StreamOk(c, st, place[r.job], w.open);
    UnfinishedHasTokensLeft(c, st, place[r.job], w.open, r, engine[b.resident]);
  }

  /** Whatever batch the worker submits, the native packing accepts it. */
  lemma WorkerBatchesAreAcceptable(c: Config, w: World, slots: seq<Option<Running>>, place: seq<Place>,
                                   engine: seq<seq<Token>>, inputs: seq<BatchInput>)
    requires c.Valid() && c.shape.batchCapacity > 0 && |slots| == c.residents
    requires WorldOk(c, w, slots, place) && SlotsOk(c, w, slots, engine)
    requires inputs != [] && InputsOk(c, w, slots, inputs) && DistinctResidents(inputs)
    requires SequenceBatch.Total(Slices(inputs)) <= Prefixes.BatchBudget(c.shape)
    ensures SequenceBatch.Acceptable(Slices(inputs), c.residents, c.shape.batchCapacity, c.context)
  {
    forall k | 0 <= k < |inputs|
      ensures var s := Slices(inputs)[k];
        s.resident < c.residents && s.tokens > 0 && s.position + s.tokens <= c.context
    {
      assert InputOk(c, w, slots, inputs[k]);
      InputFitsContext(c, w, slots, place, engine, inputs[k]);
    }
  }

  lemma MembersInRange(c: Config, w: World, slots: seq<Option<Running>>, inputs: seq<BatchInput>)
    requires InputsOk(c, w, slots, inputs)
    ensures forall k | 0 <= k < |inputs| :: inputs[k].resident < |slots|
  {
    forall k | 0 <= k < |inputs| ensures inputs[k].resident < |slots| {
      assert InputOk(c, w, slots, inputs[k]);
    }
  }

  lemma InputsSurviveClients(c: Config, a: World, b: World, slots: seq<Option<Running>>, inputs: seq<BatchInput>)
    requires InputsOk(c, a, slots, inputs) && Later(a, b)
    ensures InputsOk(c, b, slots, inputs)
  {
    forall k | 0 <= k < |inputs|
      ensures InputOk(c, b, slots, inputs[k])
    {
      assert InputOk(c, a, slots, inputs[k]);
      assert SameJob(a.streams[slots[inputs[k].resident].value.job], b.streams[slots[inputs[k].resident].value.job]);
    }
  }

  /** A member whose forward is done and whose result is not yet accounted for. */
  ghost predicate InFlight(c: Config, w: World, slots: seq<Option<Running>>, engine: seq<seq<Token>>, b: BatchInput,
                           output: Option<Token>)
  {
    && b.resident < |slots| == |engine| && slots[b.resident].Some?
    && slots[b.resident].value.job < |w.streams|
    && var r := slots[b.resident].value; var st := w.streams[r.job];
    && st.Room() && b.tokens != []
    && RunningOk(c, st, r, engine[b.resident], |b.tokens|)
    && output == (if r.position + |b.tokens| >= |st.request.prompt| then Some(c.model(engine[b.resident])) else None)
  }

  ghost predicate Pending(inputs: seq<BatchInput>, k: nat, i: nat) {
    exists j :: k <= j < |inputs| && inputs[j].resident == i
  }

  /** Members from `k` on are in flight; every other resident is at rest. */
  ghost predicate Flight(c: Config, w: World, slots: seq<Option<Running>>, engine: seq<seq<Token>>,
                         inputs: seq<BatchInput>, outputs: seq<Option<Token>>, k: nat) {
    && |engine| == |slots| && |outputs| == |inputs| && DistinctResidents(inputs) && k <= |inputs|
    && (forall j | k <= j < |inputs| :: InFlight(c, w, slots, engine, inputs[j], outputs[j]))
    && (forall i: nat | i < |slots| && !Pending(inputs, k, i) :: SlotOk(c, w, slots, engine, i))
  }

  /** What one packed submission does to the residents' histories. */
  ghost predicate Forwarded(c: Config, was: seq<seq<Token>>, now: seq<seq<Token>>, inputs: seq<BatchInput>,
                            outputs: seq<Option<Token>>, n: nat)
    requires n <= |inputs|
  {
    && |now| == |was| && |outputs| == n
    && (forall k | 0 <= k < |inputs| :: inputs[k].resident < |was|)
    && (forall k | 0 <= k < n ::
          && now[inputs[k].resident] == was[inputs[k].resident] + inputs[k].tokens
          && outputs[k] == if inputs[k].sample then Some(c.model(now[inputs[k].resident])) else None)
    && (forall i: nat | i < |was| && (forall k | 0 <= k < n :: inputs[k].resident != i) :: now[i] == was[i])
  }

  lemma TakeOff(c: Config, w: World, slots: seq<Option<Running>>, was: seq<seq<Token>>, now: seq<seq<Token>>,
                inputs: seq<BatchInput>, outputs: seq<Option<Token>>)
    requires SlotsOk(c, w, slots, was) && InputsOk(c, w, slots, inputs) && DistinctResidents(inputs)
    requires Forwarded(c, was, now, inputs, outputs, |inputs|)
    ensures Flight(c, w, slots, now, inputs, outputs, 0)
  {
    forall j | 0 <= j < |inputs|
      ensures InFlight(c, w, slots, now, inputs[j], outputs[j])
    {
      var b := inputs[j];
      assert InputOk(c, w, slots, b) && SlotOk(c, w, slots, was, b.resident);
      FeedOk(c, w.streams[slots[b.resident].value.job], slots[b.resident].value, was[b.resident], b.tokens);
    }
    forall i: nat | i < |slots| && !Pending(inputs, 0, i)
      ensures SlotOk(c, w, slots, now, i)
    {
      assert forall k | 0 <= k < |inputs| :: inputs[k].resident != i;
      assert SlotOk(c, w, slots, was, i);
    }
  }

  /** Clients acting while the batch runs leave everyone's flight as it was. */
  lemma FlightSurvivesClients(c: Config, a: World, b: World, slots: seq<Option<Running>>, engine: seq<seq<Token>>,
                              inputs: seq<BatchInput>, outputs: seq<Option<Token>>, k: nat)
    requires Flight(c, a, slots, engine, inputs, outputs, k) && Later(a, b)
    ensures Flight(c, b, slots, engine, inputs, outputs, k)
  {
    forall j | k <= j < |inputs|
      ensures InFlight(c, b, slots, engine, inputs[j], outputs[j])
    {
      assert InFlight(c, a, slots, engine, inputs[j], outputs[j]);
      assert SameJob(a.streams[slots[inputs[j].resident].value.job], b.streams[slots[inputs[j].resident].value.job]);
    }
    forall i: nat | i < |slots| && !Pending(inputs, k, i)
      ensures SlotOk(c, b, slots, engine, i)
    {
      assert SlotOk(c, a, slots, engine, i);
      if slots[i].Some? {
        assert SameJob(a.streams[slots[i].value.job], b.streams[slots[i].value.job]);
      }
    }
  }

  /** Settling member `k` lands it and keeps the others where they were. */
  lemma Land(c: Config, a: World, b: World, slots: seq<Option<Running>>, slots': seq<Option<Running>>,
             place: seq<Place>,
             engine: seq<seq<Token>>, inputs: seq<BatchInput>, outputs: seq<Option<Token>>, k: nat)
    requires Placed(a, slots, place) && k < |inputs| && Flight(c, a, slots, engine, inputs, outputs, k)
    requires inputs[k].resident < |slots| == |slots'| && slots[inputs[k].resident].Some?
    requires Undisturbed(a, b, slots[inputs[k].resident].value.job)
    requires forall i | 0 <= i < |slots| && i != inputs[k].resident :: slots'[i] == slots[i]
    requires SlotOk(c, b, slots', engine, inputs[k].resident)
    ensures Flight(c, b, slots', engine, inputs, outputs, k + 1)
  {
    var mine := inputs[k].resident;
    forall j | k + 1 <= j < |inputs|
      ensures InFlight(c, b, slots', engine, inputs[j], outputs[j])
    {
      assert InFlight(c, a, slots, engine, inputs[j], outputs[j]);
      var i := inputs[j].resident;
      assert place[slots[i].value.job] == Resident(i) && place[slots[mine].value.job] == Resident(mine);
      assert SameJob(a.streams[slots[i].value.job], b.streams[slots[i].value.job]);
    }
    forall i: nat | i < |slots'| && !Pending(inputs, k + 1, i)
      ensures SlotOk(c, b, slots', engine, i)
    {
      if i != mine {
        assert !Pending(inputs, k, i);
        assert SlotOk(c, a, slots, engine, i);
        if slots[i].Some? {
          assert place[slots[i].value.job] == Resident(i) && place[slots[mine].value.job] == Resident(mine);
          assert SameJob(a.streams[slots[i].value.job], b.streams[slots[i].value.job]);
        }
      }
    }
  }

  lemma Landed(c: Config, w: World, slots: seq<Option<Running>>, engine: seq<seq<Token>>, inputs: seq<BatchInput>,
               outputs: seq<Option<Token>>)
    requires Flight(c, w, slots, engine, inputs, outputs, |inputs|)
    ensures SlotsOk(c, w, slots, engine)
  {
    forall i: nat | i < |slots| ensures SlotOk(c, w, slots, engine, i) {
      assert !Pending(inputs, |inputs|, i);
    }
  }

  lemma TotalOfMore(inputs: seq<BatchInput>, more: BatchInput)
    ensures SequenceBatch.Total(Slices(inputs + [more])) == SequenceBatch.Total(Slices(inputs)) + |more.tokens|
  {
    assert Slices(inputs + [more])[..|inputs|] == Slices(inputs);
  }

  /** A batch under collection: `offset` slots of the rotation have been asked. */
  ghost predicate PlanOk(c: Config, w: World, slots: seq<Option<Running>>, inputs: seq<BatchInput>, t: Tick,
                         offset: nat)
  {
    && t.start < c.residents == |slots|
    && InputsOk(c, w, slots, inputs) && DistinctResidents(inputs)
    && Reached(c.residents, inputs, t, offset)
    && Swept(c.residents, t.start, offset, t.occupied, Dealt(t), slots)
    && MembersAdvance(inputs, t)
  }

  lemma PlanFacts(c: Config, w: World, slots: seq<Option<Running>>, inputs: seq<BatchInput>, t: Tick, offset: nat)
    requires PlanOk(c, w, slots, inputs, t, offset)
    ensures |slots| == c.residents && InputsOk(c, w, slots, inputs) && DistinctResidents(inputs)
  {
  }

  /** What the next answer does to the account of who was skipped. */
  lemma ProbeSkips(c: Config, began: World, a: World, b: World, slots: seq<Option<Running>>, was: Tick, i: nat,
                   v: Visited)
    requires Later(began, a) && Later(a, b) && AnswersOk(began, a, slots, was)
    requires JobsIn(began, slots)
    requires v.Skipped? ==>
      i < |slots| && slots[i].Some? && slots[i].value.job < |b.streams| && SkippedNow(b, slots[i].value.job)
    requires v.Advanced? ==> Live(a, slots, i)
    ensures Later(began, b) && b.open == a.open
    ensures AnswersOk(began, b, slots, Noted(was, i, v)) && (v.Waits? ==> AnswersOk(began, b, slots, was))
  {
    hide Calm, AnswersOk, SkippedNow;
    LaterTransitive(began, a, b);
    LaterIsCalm(began, a);
    LaterIsCalm(a, b);
    SkipsNext(began, a, b, slots, was, i, v);
    SkipsWait(was, i, v);
  }

  /** Whoever advances is among the slots already asked. */
  lemma PlanReached(c: Config, w: World, slots: seq<Option<Running>>, inputs: seq<BatchInput>, t: Tick, offset: nat)
    requires PlanOk(c, w, slots, inputs, t, offset)
    ensures forall i | i in t.advanced :: i < c.residents && Distance(c.residents, t.start, i) < offset
    ensures offset < c.residents ==> Rotate(c.residents, t.start, offset) !in t.advanced
  {
    hide InputOk, Swept;
  }

  /** A batch is filled: collection ends after the whole turn, or at a resident too wide for what is left. */
  lemma PlanIsFull(c: Config, w: World, slots: seq<Option<Running>>, inputs: seq<BatchInput>, t: Tick, offset: nat,
                   next: nat)
    requires PlanOk(c, w, slots, inputs, t, offset) && offset <= c.residents
    requires Spent(c.residents, t, offset) <= TickBudget(c.shape)
    requires offset == c.residents
      || TooWide(c, w, slots, Rotate(c.residents, t.start, offset), TickBudget(c.shape) - Spent(c.residents, t, offset))
    ensures Full(c, w, slots, t.(next := next))
  {
    hide InputsOk, Swept, TooWide, EndsAt, Full;
    PlanReached(c, w, slots, inputs, t, offset);
    TurnIsFull(c, w, slots, slots, t, offset, next);
  }

  /** Members and skipped slots are among the first `offset` of the rotation. */
  ghost predicate Reached(residents: nat, inputs: seq<BatchInput>, t: Tick, offset: nat)
    requires t.start < residents
  {
    && (forall k | 0 <= k < |inputs| ::
          inputs[k].resident < residents && Distance(residents, t.start, inputs[k].resident) < offset)
    && (forall i | i in t.skipped :: i < residents && Distance(residents, t.start, i) < offset)
  }

  /** Who advances is who is a member, by the tokens it contributes, and no member was skipped. */
  ghost predicate MembersAdvance(inputs: seq<BatchInput>, t: Tick) {
    && (forall i | i in t.advanced :: exists k | 0 <= k < |inputs| :: inputs[k].resident == i)
    && (forall k | 0 <= k < |inputs| ::
          && inputs[k].resident in t.advanced && inputs[k].resident !in t.skipped
          && t.advanced[inputs[k].resident] == |inputs[k].tokens|)
  }

  lemma PlanStart(c: Config, w: World, slots: seq<Option<Running>>, t: Tick)
    requires t.start < c.residents == |slots| && t.occupied == Occupied(slots) && t.advanced == map[] && t.skipped == {}
    ensures PlanOk(c, w, slots, [], t, 0)
  {
    SweptStart(c.residents, t, slots);
  }

  lemma PlanSurvivesClients(c: Config, a: World, b: World, slots: seq<Option<Running>>, inputs: seq<BatchInput>,
                            t: Tick, offset: nat)
    requires PlanOk(c, a, slots, inputs, t, offset) && Later(a, b)
    ensures PlanOk(c, b, slots, inputs, t, offset)
  {
    InputsSurviveClients(c, a, b, slots, inputs);
  }

  /** The answer of the next slot: nothing to add, or one more member. */
  lemma PlanNext(c: Config, w: World, slots: seq<Option<Running>>, inputs: seq<BatchInput>, t: Tick, offset: nat,
                 v: Visited, input: BatchInput)
    requires PlanOk(c, w, slots, inputs, t, offset) && offset < c.residents
    requires var i := Rotate(c.residents, t.start, offset);
      && (v.Vacant? || v.Skipped? || v.Advanced?) && (v.Vacant? ==> slots[i].None?)
      && (v.Advanced? ==> InputOk(c, w, slots, input) && input.resident == i && v.used == |input.tokens|)
    ensures var i := Rotate(c.residents, t.start, offset);
      PlanOk(c, w, slots, if v.Advanced? then inputs + [input] else inputs, Noted(t, i, v), offset + 1)
  {
    hide Swept, InputOk, Reached, MembersAdvance, DistinctResidents;
    var i := Rotate(c.residents, t.start, offset);
    SweptNext(c.residents, t.start, offset, t.occupied, Dealt(t), Dealt(Noted(t, i, v)), slots, slots);
    ReachedNext(c.residents, inputs, t, offset, v, input);
  }

  lemma ReachedNext(residents: nat, inputs: seq<BatchInput>, t: Tick, offset: nat, v: Visited, input: BatchInput)
    requires t.start < residents && offset < residents && (v.Vacant? || v.Skipped? || v.Advanced?)
    requires Reached(residents, inputs, t, offset) && MembersAdvance(inputs, t) && DistinctResidents(inputs)
    requires v.Advanced? ==> input.resident == Rotate(residents, t.start, offset) && v.used == |input.tokens|
    ensures var i, all := Rotate(residents, t.start, offset), if v.Advanced? then inputs + [input] else inputs;
      && Reached(residents, all, Noted(t, i, v), offset + 1) && MembersAdvance(all, Noted(t, i, v))
      && DistinctResidents(all)
  {
    if v.Advanced? {
      MemberAdded(residents, inputs, t, offset, input);
    }
  }

  lemma MemberAdded(residents: nat, inputs: seq<BatchInput>, t: Tick, offset: nat, input: BatchInput)
    requires t.start < residents && offset < residents && input.resident == Rotate(residents, t.start, offset)
    requires Reached(residents, inputs, t, offset) && MembersAdvance(inputs, t) && DistinctResidents(inputs)
    ensures var i, all := input.resident, inputs + [input];
      && Reached(residents, all, t.(advanced := t.advanced[i := |input.tokens|]), offset + 1)
      && MembersAdvance(all, t.(advanced := t.advanced[i := |input.tokens|])) && DistinctResidents(all)
  {
    var i, all := input.resident, inputs + [input];
    assert Distance(residents, t.start, i) == offset;
    NewMember(residents, inputs, t, offset, i);
    AdvancedBy(t.advanced.Keys, inputs, input);
    assert t.advanced[i := |input.tokens|].Keys == t.advanced.Keys + {i};
    forall k | 0 <= k < |all|
      ensures all[k].resident < residents && Distance(residents, t.start, all[k].resident) < offset + 1
      ensures all[k].resident in t.advanced[i := |input.tokens|] && all[k].resident !in t.skipped
      ensures t.advanced[i := |input.tokens|][all[k].resident] == |all[k].tokens|
    {
      assert all[k] == if k < |inputs| then inputs[k] else input;
    }
    forall j, k | 0 <= j < k < |all| ensures all[j].resident != all[k].resident {
      assert all[j] == inputs[j] && all[k] == if k < |inputs| then inputs[k] else input;
    }
  }

  lemma NewMember(residents: nat, inputs: seq<BatchInput>, t: Tick, offset: nat, i: nat)
    requires t.start < residents && i < residents && Distance(residents, t.start, i) == offset
    requires Reached(residents, inputs, t, offset)
    ensures i !in t.skipped && forall k | 0 <= k < |inputs| :: inputs[k].resident != i
  {
  }

  lemma AdvancedBy(advanced: set<nat>, inputs: seq<BatchInput>, more: BatchInput)
    requires forall i | i in advanced :: exists k | 0 <= k < |inputs| :: inputs[k].resident == i
    ensures forall i | i in advanced + {more.resident} ::
      exists k | 0 <= k < |inputs + [more]| :: (inputs + [more])[k].resident == i
  {
    var all := inputs + [more];
    forall i | i in advanced + {more.resident}
      ensures exists k | 0 <= k < |all| :: all[k].resident == i
    {
      if i == more.resident {
        assert all[|inputs|].resident == i;
      } else {
        var k :| 0 <= k < |inputs| && inputs[k].resident == i;
        assert all[k].resident == i;
      }
    }
  }

  /** The first `k` members have been accounted for, each by its own tokens; nobody else has changed. */
  ghost predicate Accounted(was: seq<Option<Running>>, now: seq<Option<Running>>, inputs: seq<BatchInput>, k: nat) {
    && |was| == |now| && k <= |inputs|
    && (forall j | 0 <= j < |inputs| && inputs[j].resident < |was| ::
          var i := inputs[j].resident; if j < k then MovedBy(was[i], now[i], |inputs[j].tokens|) else now[i] == was[i])
    && (forall i: nat | i < |was| && !Pending(inputs, 0, i) :: now[i] == was[i])
  }

  /** Only members' streams have been touched. */
  ghost predicate OthersCalm(a: World, b: World, slots: seq<Option<Running>>, inputs: seq<BatchInput>) {
    && |a.streams| <= |b.streams|
    && forall j: nat | j < |a.streams| && !MemberJob(slots, inputs, j) :: SameJob(a.streams[j], b.streams[j])
  }

  ghost predicate MemberJob(slots: seq<Option<Running>>, inputs: seq<BatchInput>, j: nat) {
    exists k :: 0 <= k < |inputs| && inputs[k].resident < |slots| && slots[inputs[k].resident].Some?
      && slots[inputs[k].resident].value.job == j
  }

  lemma OthersStart(a: World, b: World, slots: seq<Option<Running>>, inputs: seq<BatchInput>)
    requires Calm(a, b)
    ensures OthersCalm(a, b, slots, inputs)
  {
  }

  lemma OthersNext(a: World, b: World, c: World, slots: seq<Option<Running>>, inputs: seq<BatchInput>, k: nat)
    requires OthersCalm(a, b, slots, inputs) && k < |inputs| && inputs[k].resident < |slots|
    requires slots[inputs[k].resident].Some?
    requires Undisturbed(b, c, slots[inputs[k].resident].value.job)
    ensures OthersCalm(a, c, slots, inputs)
  {
    forall j: nat | j < |a.streams| && !MemberJob(slots, inputs, j) ensures SameJob(a.streams[j], c.streams[j]) {
      assert slots[inputs[k].resident].value.job != j;
      assert SameJob(a.streams[j], b.streams[j]) && SameJob(b.streams[j], c.streams[j]);
    }
  }

  /** Skips that were justified when the batch was planned still are once it has been accounted for. */
  lemma SkipsStay(c: Config, a: World, b: World, d: World, slots: seq<Option<Running>>, inputs: seq<BatchInput>,
                  t: Tick, offset: nat)
    requires PlanOk(c, b, slots, inputs, t, offset) && AnswersOk(a, b, slots, t) && OthersCalm(b, d, slots, inputs)
    requires DistinctJobs(slots)
    ensures AnswersOk(a, d, slots, t)
  {
    hide InputOk, Swept;
    forall i | i in t.skipped ensures SkipOk(a, d, slots, i) {
      assert SkipOk(a, b, slots, i);
      var j := slots[i].value.job;
      if MemberJob(slots, inputs, j) {
        var k :| 0 <= k < |inputs| && inputs[k].resident < |slots| && slots[inputs[k].resident].Some?
          && slots[inputs[k].resident].value.job == j;
        SameSlot(slots, i, inputs[k].resident);
      } else {
        assert SameJob(b.streams[j], d.streams[j]);
      }
    }
  }

  lemma SameSlot(slots: seq<Option<Running>>, i: nat, k: nat)
    requires DistinctJobs(slots) && i < |slots| && k < |slots| && slots[i].Some? && slots[k].Some?
    requires slots[i].value.job == slots[k].value.job
    ensures i == k
  {
  }

  lemma NothingAccounted(slots: seq<Option<Running>>, inputs: seq<BatchInput>)
    ensures Accounted(slots, slots, inputs, 0)
  {
  }

  lemma AccountedAt(was: seq<Option<Running>>, slots: seq<Option<Running>>, inputs: seq<BatchInput>, k: nat)
    requires Accounted(was, slots, inputs, k) && k < |inputs| && inputs[k].resident < |was|
    ensures |slots| == |was| && slots[inputs[k].resident] == was[inputs[k].resident]
  {
  }

  lemma AccountedNext(was: seq<Option<Running>>, slots: seq<Option<Running>>, now: seq<Option<Running>>,
                      inputs: seq<BatchInput>, k: nat)
    requires Accounted(was, slots, inputs, k) && k < |inputs| && DistinctResidents(inputs)
    requires inputs[k].resident < |slots| == |now| && now == slots[inputs[k].resident := now[inputs[k].resident]]
    requires MovedBy(slots[inputs[k].resident], now[inputs[k].resident], |inputs[k].tokens|)
    ensures Accounted(was, now, inputs, k + 1)
  {
    MemberPends(inputs, k);
  }

  lemma MemberPends(inputs: seq<BatchInput>, k: nat)
    requires k < |inputs|
    ensures Pending(inputs, 0, inputs[k].resident)
  {
  }

  /** A submission that has been accounted for makes the tick's account true. */
  lemma AccountedMoves(c: Config, w: World, was: seq<Option<Running>>, now: seq<Option<Running>>,
                       inputs: seq<BatchInput>, t: Tick, offset: nat)
    requires PlanOk(c, w, was, inputs, t, offset) && Accounted(was, now, inputs, |inputs|)
    ensures TickMoves(was, now, t)
  {
    hide InputOk, Swept, Reached;
    forall i | 0 <= i < |was|
      ensures if i in t.advanced then MovedBy(was[i], now[i], t.advanced[i])
        else now[i] == was[i] || (i in t.skipped && now[i].None?)
    {
      if i in t.advanced {
        var k :| 0 <= k < |inputs| && inputs[k].resident == i;
        assert MovedBy(was[i], now[i], |inputs[k].tokens|);
      } else {
        assert !Pending(inputs, 0, i);
      }
    }
  }

  /** Every member's forward is one the batched scheduler may run. */
  lemma PlannedForwards(c: Config, w: World, slots: seq<Option<Running>>, inputs: seq<BatchInput>, t: Tick, offset: nat)
    requires c.Valid() && c.shape.batchCapacity > 0 && PlanOk(c, w, slots, inputs, t, offset)
    ensures ForwardsOk(c, w, slots, t)
  {
    hide Swept, Reached, DistinctResidents, Prefixes.BatchWidth;
    forall i | i in t.advanced ensures ForwardAt(c, w, slots, i, t.advanced[i]) {
      var k :| 0 <= k < |inputs| && inputs[k].resident == i;
      assert InputOk(c, w, slots, inputs[k]);
      var r := slots[i].value;
      var prompt := |w.streams[r.job].request.prompt|;
      if r.position < prompt {
        assert Prefixes.Executes(c.shape, prompt, r.position, 0, |inputs[k].tokens|);
      }
    }
  }

  lemma PlanIsFair(c: Config, w: World, slots: seq<Option<Running>>, inputs: seq<BatchInput>, t: Tick, next: nat,
                   offset: nat, moved: nat)
    requires PlanOk(c, w, slots, inputs, t, offset) && next < c.residents && moved <= offset <= c.residents
    requires offset == c.residents || (moved > 0 && next == Turned(c.residents, t.start, moved))
    ensures Fair(c.residents, t.(next := next))
  {
    SweptIsFair(c.residents, t.(next := next), offset, moved, slots);
  }
}
