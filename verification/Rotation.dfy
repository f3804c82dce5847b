/** The rotating cursor of the scheduler: which slots a tick reaches, and how long any of them waits. */
module Rotation {
  import opened Arith
  import opened Requests
  import opened ServiceState
  import Prefixes

  /** Cursor distance: how many slots the rotation visits before slot `i`. */
  function Distance(residents: nat, cursor: nat, i: nat): nat
    requires cursor < residents && i < residents
  {
    if i >= cursor then i - cursor else i + residents - cursor
  }

  /** The `k`-th slot of the rotation that starts at `start`. */
  function Rotate(residents: nat, start: nat, k: nat): (i: nat)
    requires start < residents && k < residents
    ensures i == if start + k < residents then start + k else start + k - residents
    ensures i < residents && Distance(residents, start, i) == k
  {
    DivUnique(start + k, residents, if start + k < residents then 0 else 1,
              if start + k < residents then start + k else start + k - residents);
    (start + k) % residents
  }

  /** The rotation `k` slots on, a whole turn included. */
  function Turned(residents: nat, start: nat, k: nat): nat
    requires start < residents && k <= residents
  {
    if k == residents then start else Rotate(residents, start, k)
  }

  lemma TurnedNowhere(residents: nat, start: nat)
    requires start < residents
    ensures Turned(residents, start, 0) == start
  {
  }

  lemma NextSlot(residents: nat, start: nat, k: nat)
    requires start < residents && k < residents
    ensures (Rotate(residents, start, k) + 1) % residents == Turned(residents, start, k + 1)
  {
    var i := Rotate(residents, start, k);
    if i + 1 == residents {
      DivUnique(residents, residents, 1, 0);
    } else {
      DivUnique(i + 1, residents, 0, i + 1);
    }
  }

  /** `advanced` says by how many tokens. */
  datatype Tick = Tick(start: nat, next: nat, occupied: set<nat>, advanced: map<nat, nat>, skipped: set<nat>)

  /** What one visit of the serial rotation did. */
  datatype Visited = Vacant | Skipped | Waits | Advanced(used: nat) | Failed

  function Noted(t: Tick, i: nat, v: Visited): Tick {
    match v
    case Skipped => t.(skipped := t.skipped + {i})
    case Advanced(used) => t.(advanced := t.advanced[i := used])
    case _ => t
  }

  function Dealt(t: Tick): set<nat> {
    t.advanced.Keys + t.skipped
  }

  /** A tick advances, skips, or comes strictly closer to every resident it met. */
  ghost predicate Fair(residents: nat, t: Tick) {
    && t.start < residents && t.next < residents
    && (forall i | i in t.occupied && i < residents ::
          i in t.advanced || i in t.skipped || Distance(residents, t.next, i) < Distance(residents, t.start, i))
  }

  /**
   Bounded waiting: over `residents` consecutive fair ticks, a slot that stays
   occupied and is never skipped (cancelled or backpressured) is advanced.
   */
  lemma BoundedWaiting(residents: nat, i: nat, ticks: seq<Tick>)
    requires i < residents == |ticks|
    requires forall t | 0 <= t < |ticks| ::
      Fair(residents, ticks[t]) && i in ticks[t].occupied && i !in ticks[t].skipped
    requires forall t | 0 <= t < |ticks| - 1 :: ticks[t + 1].start == ticks[t].next
    ensures exists t | 0 <= t < residents :: i in ticks[t].advanced
  {
    WaitsOut(residents, i, ticks, 0);
  }

  lemma {:induction false} WaitsOut(residents: nat, i: nat, ticks: seq<Tick>, at: nat)
    requires i < residents && at < |ticks|
    requires forall t | 0 <= t < |ticks| ::
      Fair(residents, ticks[t]) && i in ticks[t].occupied && i !in ticks[t].skipped
    requires forall t | 0 <= t < |ticks| - 1 :: ticks[t + 1].start == ticks[t].next
    requires ticks[at].start < residents && Distance(residents, ticks[at].start, i) < |ticks| - at
    ensures exists t | at <= t < |ticks| :: i in ticks[t].advanced
    decreases |ticks| - at
  {
    if i !in ticks[at].advanced {
      assert Fair(residents, ticks[at]);
      if at + 1 < |ticks| {
        assert ticks[at + 1].start == ticks[at].next;
        WaitsOut(residents, i, ticks, at + 1);
      }
    }
  }

  /** A skip is justified: by now the client has gone, or the queue was full when the tick began. */
  ghost predicate SkipOk(a: World, b: World, was: seq<Option<Running>>, i: nat) {
    && i < |was| && was[i].Some?
    && var j := was[i].value.job;
    j < |a.streams| <= |b.streams| && (b.streams[j].Cancelled() || !a.streams[j].Room())
  }

  /** Nobody is advanced whose client had gone when the tick began. */
  ghost predicate Live(a: World, was: seq<Option<Running>>, i: nat) {
    && i < |was| && was[i].Some? && was[i].value.job < |a.streams|
    && !a.streams[was[i].value.job].Cancelled()
  }

  ghost predicate AnswersOk(a: World, b: World, was: seq<Option<Running>>, t: Tick) {
    && (forall i | i in t.skipped :: SkipOk(a, b, was, i))
    && (forall i | i in t.advanced :: Live(a, was, i))
  }

  lemma SkipsNext(a: World, b: World, c: World, was: seq<Option<Running>>, t: Tick, i: nat, v: Visited)
    requires AnswersOk(a, b, was, t) && Calm(a, b) && Calm(b, c)
    requires v.Skipped? ==>
      i < |was| && was[i].Some? && was[i].value.job < |a.streams| && SkippedNow(c, was[i].value.job)
    requires v.Advanced? ==> Live(b, was, i) && was[i].value.job < |a.streams|
    ensures AnswersOk(a, c, was, Noted(t, i, v))
  {
    var after := Noted(t, i, v);
    if v.Advanced? {
      assert SameJob(a.streams[was[i].value.job], b.streams[was[i].value.job]);
    }
    forall k | k in after.skipped ensures SkipOk(a, c, was, k) {
      if k in t.skipped {
        assert SkipOk(a, b, was, k);
        assert SameJob(b.streams[was[k].value.job], c.streams[was[k].value.job]);
      } else {
        assert SameJob(a.streams[was[i].value.job], b.streams[was[i].value.job]);
        assert SameJob(b.streams[was[i].value.job], c.streams[was[i].value.job]);
      }
    }
  }

  lemma SkipsWait(t: Tick, i: nat, v: Visited)
    ensures v.Waits? ==> Noted(t, i, v) == t
  {
  }

  lemma NoSkips(w: World, was: seq<Option<Running>>, t: Tick)
    requires t.skipped == {} && t.advanced == map[]
    ensures AnswersOk(w, w, was, t)
  {
  }

  lemma SkipsKept(a: World, b: World, was: seq<Option<Running>>, t: Tick, next: nat)
    requires AnswersOk(a, b, was, t)
    ensures AnswersOk(a, b, was, t.(next := next))
  {
    forall i | i in t.skipped ensures SkipOk(a, b, was, i) {
    }
  }

  /** In the middle of a turn that began in world `a`: the streams of slots not yet reached have only seen clients. */
  ghost predicate Witnessed(residents: nat, t: Tick, offset: nat, a: World, b: World, was: seq<Option<Running>>)
    requires t.start < residents == |was|
  {
    && |a.streams| <= |b.streams| && DistinctJobs(was) && JobsIn(a, was) && AnswersOk(a, b, was, t)
    && (forall i | i in t.skipped :: i < residents && Distance(residents, t.start, i) < offset)
    && (forall i | 0 <= i < residents && was[i].Some? && Distance(residents, t.start, i) >= offset ::
          SameJob(a.streams[was[i].value.job], b.streams[was[i].value.job]))
  }

  lemma WitnessedStart(residents: nat, t: Tick, a: World, was: seq<Option<Running>>)
    requires t.start < residents == |was| && t.skipped == {} && t.advanced == map[]
    requires DistinctJobs(was) && JobsIn(a, was)
    ensures Witnessed(residents, t, 0, a, a, was)
  {
  }

  lemma WitnessedCalm(residents: nat, t: Tick, offset: nat, a: World, b: World, c: World, was: seq<Option<Running>>)
    requires t.start < residents == |was| && Witnessed(residents, t, offset, a, b, was) && Calm(b, c)
    ensures Witnessed(residents, t, offset, a, c, was)
  {
    forall i | i in t.skipped ensures SkipOk(a, c, was, i) {
      assert SkipOk(a, b, was, i);
      assert SameJob(b.streams[was[i].value.job], c.streams[was[i].value.job]);
    }
    forall i | 0 <= i < residents && was[i].Some? && Distance(residents, t.start, i) >= offset
      ensures SameJob(a.streams[was[i].value.job], c.streams[was[i].value.job])
    {
      assert SameJob(b.streams[was[i].value.job], c.streams[was[i].value.job]);
    }
  }

  /** What a visit did to its own slot's stream is nobody else's business, and a skip was justified. */
  lemma WitnessedNext(residents: nat, t: Tick, offset: nat, a: World, b: World, c: World, was: seq<Option<Running>>,
                      v: Visited)
    requires t.start < residents == |was| && offset < residents && Witnessed(residents, t, offset, a, b, was)
    requires var i := Rotate(residents, t.start, offset);
      if was[i].None? then v.Vacant? && c == b
      else && (v.Skipped? || v.Advanced?) && Undisturbed(b, c, was[i].value.job)
           && (v.Skipped? ==> Calm(b, c) && was[i].value.job < |c.streams| && SkippedNow(c, was[i].value.job))
           && (v.Advanced? ==> Live(b, was, i))
    ensures Witnessed(residents, Noted(t, Rotate(residents, t.start, offset), v), offset + 1, a, c, was)
  {
    var i := Rotate(residents, t.start, offset);
    if was[i].Some? {
      var j := was[i].value.job;
      forall k | k in t.skipped ensures SkipOk(a, c, was, k) {
        assert SkipOk(a, b, was, k) && was[k].value.job != j;
        assert SameJob(b.streams[was[k].value.job], c.streams[was[k].value.job]);
      }
      forall k | 0 <= k < residents && was[k].Some? && Distance(residents, t.start, k) >= offset + 1
        ensures SameJob(a.streams[was[k].value.job], c.streams[was[k].value.job])
      {
        assert was[k].value.job != j;
        assert SameJob(b.streams[was[k].value.job], c.streams[was[k].value.job]);
      }
      if v.Skipped? {
        assert SameJob(b.streams[j], c.streams[j]);
        assert SkipOk(a, c, was, i);
      }
    }
  }

  lemma WitnessedSkips(residents: nat, t: Tick, offset: nat, a: World, b: World, was: seq<Option<Running>>, next: nat)
    requires t.start < residents == |was| && Witnessed(residents, t, offset, a, b, was)
    ensures AnswersOk(a, b, was, t.(next := next))
  {
  }

  lemma AsFound(residents: nat, t: Tick, offset: nat, was: seq<Option<Running>>, now: seq<Option<Running>>)
    requires t.start < residents == |was| && offset < residents && Underway(residents, t, offset, was, now)
    ensures |now| == |was| && now[Rotate(residents, t.start, offset)] == was[Rotate(residents, t.start, offset)]
  {
  }

  /** The client has gone, or its queue is full. */
  ghost predicate SkippedNow(w: World, j: nat)
    requires j < |w.streams|
  {
    w.streams[j].Cancelled() || !w.streams[j].Room()
  }

  /** Who advanced did so by a forward the scheduler may run at its position. */
  ghost predicate ForwardsOk(c: Config, w: World, was: seq<Option<Running>>, t: Tick) {
    c.Valid() && forall i | i in t.advanced :: ForwardAt(c, w, was, i, t.advanced[i])
  }

  ghost predicate ForwardAt(c: Config, w: World, was: seq<Option<Running>>, i: nat, width: nat)
    requires c.Valid()
  {
    && i < |was| && was[i].Some? && was[i].value.job < |w.streams|
    && Prefixes.Forward(c.shape, |w.streams[was[i].value.job].request.prompt|, was[i].value.position, width)
  }

  lemma ForwardsNext(c: Config, a: World, b: World, was: seq<Option<Running>>, slots: seq<Option<Running>>,
                     t: Tick, i: nat, v: Visited)
    requires ForwardsOk(c, a, was, t) && Grows(a, b) && JobsIn(a, was)
    requires v.Advanced? ==> i < |slots| == |was| && slots[i] == was[i] && ForwardAt(c, b, slots, i, v.used)
    ensures ForwardsOk(c, a, was, Noted(t, i, v))
  {
    hide Prefixes.Forward;
    forall k | k in Noted(t, i, v).advanced ensures ForwardAt(c, a, was, k, Noted(t, i, v).advanced[k]) {
      if k in t.advanced {
        assert ForwardAt(c, a, was, k, t.advanced[k]);
      }
      if k == i && v.Advanced? {
        assert b.streams[was[i].value.job].request == a.streams[was[i].value.job].request;
      }
    }
  }

  lemma ForwardsEarlier(c: Config, a: World, b: World, was: seq<Option<Running>>, t: Tick, next: nat)
    requires ForwardsOk(c, b, was, t) && Grows(a, b) && JobsIn(a, was)
    ensures ForwardsOk(c, a, was, t.(next := next))
  {
    hide Prefixes.Forward;
    forall k | k in t.advanced ensures ForwardAt(c, a, was, k, t.advanced[k]) {
      assert ForwardAt(c, b, was, k, t.advanced[k]);
    }
  }

  lemma NoForwards(c: Config, w: World, was: seq<Option<Running>>, t: Tick)
    requires c.Valid() && t.advanced == map[]
    ensures ForwardsOk(c, w, was, t)
  {
  }

  /** A quantum is never larger than the budget, so a deferral means that peers have used some of it. */
  lemma DeferredIsShort(e: Prefixes.Shape, position: nat, prompt: nat, left: nat)
    requires e.Valid() && position < prompt && Prefixes.Deferred(e, position, prompt, left)
    ensures left < e.budget
  {
    Prefixes.ChunkFits(e, Min(prompt - position, e.budget));
  }

  /** The client of job `j` has asked for an end, or has dropped its receiver. */
  ghost predicate Deserted(w: World, j: nat) {
    j < |w.streams| && (w.streams[j].cancel || w.streams[j].closed)
  }

  /** A resident as it is seated, between worlds `a` and `b`: next in the queue, its client still there. */
  ghost predicate Seated(a: World, b: World, r: Running) {
    && Front(a) <= r.job < Front(b) && r == Running(r.job, r.cached, 0, None, r.cached, None)
    && !Deserted(a, r.job)
  }

  /**
   What admission does to a slot: it drops a resident whose client has gone, and only such a one, and may seat the next
   of the queue.
   */
  ghost predicate Readmitted(a: World, b: World, was: Option<Running>, now: Option<Running>) {
    (now == was && (was.Some? ==> !Deserted(a, was.value.job))) || (
      && (was.Some? ==> was.value.job < |b.streams| && b.streams[was.value.job].Cancelled())
      && (now.Some? ==> Seated(a, b, now.value)))
  }

  lemma ReadmittedLater(a: World, b: World, d: World, was: Option<Running>, now: Option<Running>)
    requires Readmitted(a, b, was, now) && Grows(b, d)
    ensures Readmitted(a, d, was, now)
  {
  }

  lemma ReadmittedSince(a: World, b: World, d: World, was: Option<Running>, now: Option<Running>)
    requires Readmitted(b, d, was, now) && Grows(a, b)
    ensures Readmitted(a, d, was, now)
  {
  }

  /** From the top of an iteration to its tick there are clients and admissions only. */
  ghost predicate Admission(a: World, held: seq<Option<Running>>, b: World, was: seq<Option<Running>>) {
    && Admitting(a, b) && Grows(a, b) && |held| == |was|
    && forall i | 0 <= i < |was| :: Readmitted(a, b, held[i], was[i])
  }

  /**
   One iteration of a run: the world and the slots at its top, after its admissions, and after its tick.
   An iteration that found nobody has an empty tick.
   */
  datatype Round = Round(
    found: World, held: seq<Option<Running>>, began: World, was: seq<Option<Running>>,
    ended: World, now: seq<Option<Running>>, tick: Tick)

  ghost predicate RoundOk(c: Config, r: Round) {
    && |r.was| == c.residents && r.tick.occupied == Occupied(r.was)
    && DistinctJobs(r.was) && JobsBelow(r.was, Front(r.began)) && JobsIn(r.began, r.was)
    && Admission(r.found, r.held, r.began, r.was) && Grows(r.began, r.ended)
    && TickMoves(r.was, r.now, r.tick) && AnswersOk(r.began, r.ended, r.was, r.tick)
    && ForwardsOk(c, r.began, r.was, r.tick)
    && (Full(c, r.began, r.was, r.tick) || (c.shape.batchCapacity == 0 && r.ended.stop))
  }

  /** Slot `i` holds a resident whose client has not gone by the end and whose queue had room at the beginning. */
  ghost predicate Ready(r: Round, i: nat) {
    && i < |r.was| && r.was[i].Some?
    && var j := r.was[i].value.job;
    j < |r.began.streams| <= |r.ended.streams| && !r.ended.streams[j].Cancelled() && r.began.streams[j].Room()
  }

  /** Main: whoever's client had gone at the top of an iteration is out of its slot by its tick. */
  lemma DesertedLeaves(c: Config, r: Round, i: nat)
    requires RoundOk(c, r) && i < |r.held| && r.held[i].Some? && Deserted(r.found, r.held[i].value.job)
    ensures i < |r.was| && (r.was[i].Some? ==> r.was[i].value.job != r.held[i].value.job)
    ensures i in r.tick.advanced ==> r.was[i].Some? && !Deserted(r.began, r.was[i].value.job)
  {
    hide Full, ForwardsOk, TickMoves;
    assert Readmitted(r.found, r.began, r.held[i], r.was[i]);
    assert i in r.tick.advanced ==> Live(r.began, r.was, i);
  }

  /** Between two rounds of a run only clients act; the first was fair and hands its cursor on. */
  ghost predicate Follows(c: Config, a: Round, b: Round) {
    && Fair(c.residents, a.tick) && b.tick.start == a.tick.next
    && b.held == a.now && Later(a.ended, b.found)
  }

  ghost predicate Linked(c: Config, rounds: seq<Round>) {
    && (forall t | 0 <= t < |rounds| :: RoundOk(c, rounds[t]))
    && (forall t | 0 <= t < |rounds| - 1 :: Follows(c, rounds[t], rounds[t + 1]))
  }

  lemma LinkedMore(c: Config, rounds: seq<Round>, r: Round)
    requires Linked(c, rounds) && RoundOk(c, r)
    requires rounds != [] ==> Follows(c, rounds[|rounds| - 1], r)
    ensures Linked(c, rounds + [r])
  {
    hide RoundOk, Follows;
  }

  /** Why the serving loop ends; `TurnsOver` stands for the shutdown that is requested at the latest. */
  datatype Cause = StopRequested | TurnsOver | Abandoned | EngineFailed

  /** Where a run that began in `a` stands after these rounds: only clients have acted since the last of them. */
  ghost predicate Tail(a: World, first: seq<Option<Running>>, rounds: seq<Round>, b: World,
                       slots: seq<Option<Running>>)
  {
    if rounds == [] then Later(a, b) && slots == first
    else Later(rounds[|rounds| - 1].ended, b) && slots == rounds[|rounds| - 1].now
  }

  /** A run in progress: its log so far leads from world `a` to world `b`. */
  ghost predicate Serving(c: Config, a: World, first: seq<Option<Running>>, start: nat, rounds: seq<Round>,
                          b: World, slots: seq<Option<Running>>, cursor: nat) {
    && Linked(c, rounds) && Tail(a, first, rounds, b, slots)
    && (rounds != [] ==> Later(a, rounds[0].found) && rounds[0].held == first && rounds[0].tick.start == start)
    && cursor == (if rounds == [] then start else rounds[|rounds| - 1].tick.next)
    && (rounds != [] ==> Fair(c.residents, rounds[|rounds| - 1].tick) || b.stop)
  }

  lemma ServingStart(c: Config, a: World, first: seq<Option<Running>>, start: nat)
    ensures Serving(c, a, first, start, [], a, first, start)
  {
    LaterReflexive(a);
  }

  lemma ServingLater(c: Config, a: World, first: seq<Option<Running>>, start: nat, rounds: seq<Round>,
                     b: World, slots: seq<Option<Running>>, cursor: nat, d: World)
    requires Serving(c, a, first, start, rounds, b, slots, cursor) && Later(b, d)
    ensures Serving(c, a, first, start, rounds, d, slots, cursor)
  {
    LaterTransitive(if rounds == [] then a else rounds[|rounds| - 1].ended, b, d);
  }

  lemma ServingMore(c: Config, a: World, first: seq<Option<Running>>, start: nat, rounds: seq<Round>,
                    cursor: nat, r: Round)
    requires Serving(c, a, first, start, rounds, r.found, r.held, cursor) && !r.found.stop
    requires RoundOk(c, r) && r.tick.start == cursor && (Fair(c.residents, r.tick) || r.ended.stop)
    ensures Serving(c, a, first, start, rounds + [r], r.ended, r.now, r.tick.next)
  {
    hide RoundOk, Fair;
    LinkedMore(c, rounds, r);
    LaterReflexive(r.ended);
  }

  /** The log of a whole run: it starts where the run started and the closing begins where it ends. */
  ghost predicate RunOk(c: Config, a: World, first: seq<Option<Running>>, cursor: nat, rounds: seq<Round>,
                        closing: World, parting: seq<Option<Running>>, cause: Cause) {
    && Linked(c, rounds)
    && (rounds != [] ==> Later(a, rounds[0].found) && rounds[0].held == first && rounds[0].tick.start == cursor)
    && (!cause.EngineFailed? ==> Tail(a, first, rounds, closing, parting))
    && (cause.StopRequested? || cause.TurnsOver? ==> closing.stop)
    && (cause.Abandoned? ==> rounds != [] && rounds[|rounds| - 1].tick.occupied == {})
  }

  /** An iteration that found nobody resident. */
  ghost predicate Nobody(r: Round) {
    forall i | 0 <= i < |r.was| :: r.was[i].None?
  }

  /** The loop goes on while there is anyone to serve or anyone left to send: `gone` says after which iterations not. */
  ghost predicate LeavesLast(rounds: seq<Round>, gone: nat -> bool, cause: Cause) {
    && (forall k: nat | k < |rounds| && Nobody(rounds[k]) && gone(k) :: cause.Abandoned? && k == |rounds| - 1)
    && (cause.Abandoned? ==> rounds != [] && Nobody(rounds[|rounds| - 1]) && gone(|rounds| - 1))
  }

  ghost predicate Manned(rounds: seq<Round>, gone: nat -> bool) {
    forall k: nat | k < |rounds| && Nobody(rounds[k]) :: !gone(k)
  }

  lemma NobodyYet(gone: nat -> bool)
    ensures Manned([], gone)
  {
  }

  lemma MannedMore(rounds: seq<Round>, r: Round, gone: nat -> bool)
    requires Manned(rounds, gone)
    ensures
      if Nobody(r) && gone(|rounds|) then LeavesLast(rounds + [r], gone, Abandoned) else Manned(rounds + [r], gone)
  {
    hide Nobody;
    forall k | 0 <= k < |rounds| ensures (rounds + [r])[k] == rounds[k] {
    }
  }

  lemma MannedLeaves(rounds: seq<Round>, gone: nat -> bool, cause: Cause)
    requires Manned(rounds, gone) && !cause.Abandoned?
    ensures LeavesLast(rounds, gone, cause)
  {
    hide Nobody;
  }

  lemma ServingEnds(c: Config, a: World, first: seq<Option<Running>>, start: nat, rounds: seq<Round>,
                    b: World, slots: seq<Option<Running>>, cursor: nat, cause: Cause)
    requires Serving(c, a, first, start, rounds, b, slots, cursor)
    requires cause.StopRequested? || cause.TurnsOver? ==> b.stop
    requires cause.Abandoned? ==> rounds != [] && rounds[|rounds| - 1].tick.occupied == {}
    ensures RunOk(c, a, first, start, rounds, b, slots, cause)
  {
  }

  lemma ServingFails(c: Config, a: World, first: seq<Option<Running>>, start: nat, rounds: seq<Round>,
                     b: World, slots: seq<Option<Running>>, cursor: nat, d: World, parting: seq<Option<Running>>)
    requires Serving(c, a, first, start, rounds, b, slots, cursor)
    ensures RunOk(c, a, first, start, rounds, d, parting, EngineFailed)
  {
  }

  lemma RunLinked(c: Config, a: World, first: seq<Option<Running>>, start: nat, rounds: seq<Round>,
                  b: World, parting: seq<Option<Running>>, cause: Cause)
    requires RunOk(c, a, first, start, rounds, b, parting, cause)
    ensures Linked(c, rounds)
  {
  }

  /**
   If slot `i` is ready in `residents` rounds on end before the last, its resident moves on, or ends, in one of them.
   */
  ghost predicate ServedFrom(residents: nat, rounds: seq<Round>, i: nat, from: nat) {
    from + residents < |rounds| && (forall t | from <= t < from + residents :: Ready(rounds[t], i)) ==>
      exists t | from <= t < from + residents ::
        i < |rounds[t].was| == |rounds[t].now| && Moved(rounds[t].was[i], rounds[t].now[i])
  }

  lemma ReadyIsMet(c: Config, r: Round, i: nat)
    requires RoundOk(c, r) && Ready(r, i)
    ensures i in r.tick.occupied && i !in r.tick.skipped
    ensures i in r.tick.advanced ==> |r.now| == |r.was| && Moved(r.was[i], r.now[i])
  {
    ReadyIsNotSkipped(r.began, r.ended, r.was, r.tick, i);
  }

  lemma ReadyIsNotSkipped(a: World, b: World, was: seq<Option<Running>>, t: Tick, i: nat)
    requires AnswersOk(a, b, was, t)
    ensures i in t.skipped ==> SkipOk(a, b, was, i)
  {
  }

  /** In a run, any `residents` rounds on end serve whoever is ready throughout. */
  lemma ChainServes(c: Config, rounds: seq<Round>, i: nat, from: nat)
    requires Linked(c, rounds) && i < c.residents
    ensures ServedFrom(c.residents, rounds, i, from)
  {
    hide RoundOk, Fair, Moved, Ready;
    var residents := c.residents;
    if from + residents < |rounds| && forall t | from <= t < from + residents :: Ready(rounds[t], i) {
      var window := seq(residents, t requires 0 <= t < residents => rounds[from + t].tick);
      forall t | 0 <= t < residents
        ensures i in window[t].occupied && i !in window[t].skipped && Fair(residents, window[t])
      {
        ReadyIsMet(c, rounds[from + t], i);
        assert Follows(c, rounds[from + t], rounds[from + t + 1]);
      }
      forall t | 0 <= t < residents - 1 ensures window[t + 1].start == window[t].next {
        assert Follows(c, rounds[from + t], rounds[from + t + 1]);
      }
      BoundedWaiting(residents, i, window);
      var t :| 0 <= t < residents && i in window[t].advanced;
      ReadyIsMet(c, rounds[from + t], i);
      ReadyInRange(rounds[from + t], i);
    }
  }

  lemma ReadyInRange(r: Round, i: nat)
    requires Ready(r, i)
    ensures i < |r.was|
  {
  }

  /** The first `offset` slots of the rotation have been dealt with; the others are as the tick found them. */
  ghost predicate Swept(residents: nat, start: nat, offset: nat, occupied: set<nat>, dealt: set<nat>,
                        slots: seq<Option<Running>>)
    requires start < residents == |slots|
  {
    forall i | 0 <= i < residents ::
      if Distance(residents, start, i) < offset then i in occupied ==> i in dealt
      else i in occupied <==> slots[i].Some?
  }

  function Occupied(slots: seq<Option<Running>>): set<nat> {
    set i: nat | 0 <= i < |slots| && slots[i].Some?
  }

  /** The account of an iteration that finds nobody. */
  lemma EmptyRound(c: Config, w: World, slots: seq<Option<Running>>, cursor: nat)
    requires c.Valid() && |slots| == c.residents && cursor < c.residents
    requires forall i | 0 <= i < |slots| :: slots[i].None?
    ensures var t := Tick(cursor, cursor, {}, map[], {});
      && Occupied(slots) == {} && TickMoves(slots, slots, t) && AnswersOk(w, w, slots, t)
      && ForwardsOk(c, w, slots, t) && Fair(c.residents, t) && Full(c, w, slots, t)
  {
    EmptyIsFull(c, w, slots, Tick(cursor, cursor, {}, map[], {}));
    hide EndsAt;
  }

  lemma SweptStart(residents: nat, t: Tick, slots: seq<Option<Running>>)
    requires t.start < residents == |slots|
    requires t.occupied == Occupied(slots) && t.advanced == map[] && t.skipped == {}
    ensures Swept(residents, t.start, 0, t.occupied, Dealt(t), slots)
  {
  }

  lemma SweptNext(residents: nat, start: nat, offset: nat, occupied: set<nat>, dealt: set<nat>, dealt': set<nat>,
                  slots: seq<Option<Running>>, slots': seq<Option<Running>>)
    requires start < residents == |slots| == |slots'| && offset < residents
    requires Swept(residents, start, offset, occupied, dealt, slots) && dealt <= dealt'
    requires var i := Rotate(residents, start, offset);
      && (forall k | 0 <= k < residents && k != i :: slots'[k] == slots[k])
      && (slots[i].Some? ==> i in dealt')
    ensures Swept(residents, start, offset + 1, occupied, dealt', slots')
  {
  }

  /** What an advance does to a resident: it moves on by `used` positions, or leaves. */
  predicate MovedBy(was: Option<Running>, now: Option<Running>, used: nat) {
    && was.Some? && used > 0
    && (now.Some? ==>
          && now.value.job == was.value.job && now.value.cached == was.value.cached
          && now.value.position == was.value.position + used)
  }

  predicate Moved(was: Option<Running>, now: Option<Running>) {
    was.Some? && (now.Some? ==> now.value.job == was.value.job && now.value.position > was.value.position)
  }

  /**
   A tick's account is true: who advanced has moved, and nobody else has changed, save that a skipped one may have
   left.
   */
  ghost predicate TickMoves(was: seq<Option<Running>>, now: seq<Option<Running>>, t: Tick) {
    |was| == |now| && forall i | 0 <= i < |was| ::
      if i in t.advanced then MovedBy(was[i], now[i], t.advanced[i])
      else now[i] == was[i] || (i in t.skipped && now[i].None?)
  }

  lemma SameMoves(was: seq<Option<Running>>, now: seq<Option<Running>>, t: Tick, next: nat)
    requires TickMoves(was, now, t)
    ensures TickMoves(was, now, t.(next := next))
  {
  }

  /** The same in the middle of a turn: the slots not yet reached are as the tick found them. */
  ghost predicate Underway(residents: nat, t: Tick, offset: nat, was: seq<Option<Running>>, now: seq<Option<Running>>)
    requires t.start < residents == |was|
  {
    && TickMoves(was, now, t)
    && forall i | 0 <= i < residents && Distance(residents, t.start, i) >= offset ::
      i !in t.advanced && now[i] == was[i]
  }

  lemma UnderwayStart(residents: nat, t: Tick, slots: seq<Option<Running>>)
    requires t.start < residents == |slots| && t.advanced == map[]
    ensures Underway(residents, t, 0, slots, slots)
  {
  }

  lemma UnderwayMoves(residents: nat, t: Tick, offset: nat, was: seq<Option<Running>>, now: seq<Option<Running>>,
                      next: nat)
    requires t.start < residents == |was| && Underway(residents, t, offset, was, now)
    ensures TickMoves(was, now, t.(next := next))
  {
  }

  lemma UnderwayNext(residents: nat, t: Tick, offset: nat, was: seq<Option<Running>>, slots: seq<Option<Running>>,
                     now: seq<Option<Running>>, v: Visited)
    requires t.start < residents == |was| && offset < residents && Underway(residents, t, offset, was, slots)
    requires var i := Rotate(residents, t.start, offset);
      && |now| == |slots| && (forall k | 0 <= k < residents && k != i :: now[k] == slots[k])
      && (match v
          case Advanced(used) => MovedBy(slots[i], now[i], used)
          case Skipped => now[i] == slots[i] || now[i].None?
          case Vacant => now[i] == slots[i]
          case _ => false)
    ensures Underway(residents, Noted(t, Rotate(residents, t.start, offset), v), offset + 1, was, now)
  {
  }

  /**
   The whole account of a serial turn that began in world `a` with slots `was` and has dealt with `offset` of them.
   */
  ghost predicate Accounting(c: Config, t: Tick, offset: nat, a: World, was: seq<Option<Running>>,
                             b: World, now: seq<Option<Running>>) {
    && c.Valid() && t.start < c.residents == |was| == |now| && t.occupied == Occupied(was)
    && JobsIn(a, was) && Grows(a, b)
    && Swept(c.residents, t.start, offset, t.occupied, Dealt(t), now)
    && Underway(c.residents, t, offset, was, now) && Witnessed(c.residents, t, offset, a, b, was)
    && ForwardsOk(c, a, was, t)
  }

  lemma AccountingStart(c: Config, t: Tick, w: World, slots: seq<Option<Running>>)
    requires c.Valid() && t.start < c.residents == |slots| && DistinctJobs(slots) && JobsIn(w, slots)
    requires t == Tick(t.start, t.next, Occupied(slots), map[], {})
    ensures Accounting(c, t, 0, w, slots, w, slots)
    ensures Turned(c.residents, t.start, 0) == t.start
  {
    SweptStart(c.residents, t, slots);
    UnderwayStart(c.residents, t, slots);
    WitnessedStart(c.residents, t, w, slots);
    NoForwards(c, w, slots, t);
  }

  lemma AccountingFacts(c: Config, t: Tick, offset: nat, a: World, was: seq<Option<Running>>,
                        b: World, now: seq<Option<Running>>)
    requires Accounting(c, t, offset, a, was, b, now)
    ensures c.Valid() && t.start < c.residents == |was| == |now| && Grows(a, b)
  {
  }

  lemma AccountingCalm(c: Config, t: Tick, offset: nat, a: World, was: seq<Option<Running>>,
                       b: World, d: World, now: seq<Option<Running>>)
    requires Accounting(c, t, offset, a, was, b, now) && Calm(b, d) && Grows(a, d)
    ensures Accounting(c, t, offset, a, was, d, now)
  {
    hide Swept, Underway, ForwardsOk;
    WitnessedCalm(c.residents, t, offset, a, b, d, was);
  }

  /** The visit of the slot in turn, as the scheduler reports it. */
  ghost predicate VisitOk(c: Config, i: nat, b: World, slots: seq<Option<Running>>,
                          d: World, now: seq<Option<Running>>, v: Visited)
    requires c.Valid() && i < |slots|
  {
    && |now| == |slots| && (forall k | 0 <= k < |slots| && k != i :: now[k] == slots[k])
    && (v.Vacant? <==> slots[i].None?) && !v.Failed? && !v.Waits?
    && (v.Vacant? ==> now == slots && d == b)
    && (!v.Vacant? ==> Undisturbed(b, d, slots[i].value.job))
    && (v.Skipped? ==>
          && Calm(b, d) && slots[i].value.job < |d.streams| && (now[i] == slots[i] || now[i].None?)
          && SkippedNow(d, slots[i].value.job))
    && (v.Advanced? ==> MovedBy(slots[i], now[i], v.used) && ForwardAt(c, b, slots, i, v.used) && Live(b, slots, i))
  }

  lemma AccountingNext(c: Config, t: Tick, offset: nat, a: World, was: seq<Option<Running>>,
                       b: World, slots: seq<Option<Running>>, d: World, now: seq<Option<Running>>, v: Visited)
    requires Accounting(c, t, offset, a, was, b, slots) && offset < c.residents && Grows(a, d)
    requires VisitOk(c, Rotate(c.residents, t.start, offset), b, slots, d, now, v)
    ensures Accounting(c, Noted(t, Rotate(c.residents, t.start, offset), v), offset + 1, a, was, d, now)
  {
    hide Swept, Underway, Witnessed, ForwardsOk, ForwardAt, Grows, SkippedNow, Calm, Undisturbed;
    var i := Rotate(c.residents, t.start, offset);
    AsFound(c.residents, t, offset, was, slots);
    ForwardsNext(c, a, b, was, slots, t, i, v);
    SweptNext(c.residents, t.start, offset, t.occupied, Dealt(t), Dealt(Noted(t, i, v)), slots, now);
    UnderwayNext(c.residents, t, offset, was, slots, now, v);
    WitnessedNext(c.residents, t, offset, a, b, d, was, v);
  }

  lemma AccountingEnds(c: Config, t: Tick, offset: nat, a: World, was: seq<Option<Running>>,
                       b: World, now: seq<Option<Running>>, next: nat, moved: nat)
    requires Accounting(c, t, offset, a, was, b, now) && next < c.residents && moved <= offset <= c.residents
    ensures var u := t.(next := next);
      TickMoves(was, now, u) && AnswersOk(a, b, was, u) && ForwardsOk(c, a, was, u)
    ensures offset == c.residents || (moved > 0 && next == Turned(c.residents, t.start, moved)) ==>
      Fair(c.residents, t.(next := next))
  {
    hide Swept, Underway, Witnessed, Fair, Turned;
    WitnessedSkips(c.residents, t, offset, a, b, was, next);
    UnderwayMoves(c.residents, t, offset, was, now, next);
    if offset == c.residents || (moved > 0 && next == Turned(c.residents, t.start, moved)) {
      SweptIsFair(c.residents, t.(next := next), offset, moved, now);
    }
  }

  /** A tick that swept everyone, or stopped with its cursor past at least one slot, was fair. */
  lemma SweptIsFair(residents: nat, t: Tick, offset: nat, moved: nat, slots: seq<Option<Running>>)
    requires t.start < residents == |slots| && t.next < residents && moved <= offset <= residents
    requires Swept(residents, t.start, offset, t.occupied, Dealt(t), slots)
    requires offset == residents || (moved > 0 && t.next == Turned(residents, t.start, moved))
    ensures Fair(residents, t)
  {
    forall i | i in t.occupied && i < residents
      ensures i in t.advanced || i in t.skipped || Distance(residents, t.next, i) < Distance(residents, t.start, i)
    {
      assert i in t.advanced.Keys + t.skipped <==> i in t.advanced || i in t.skipped;
    }
  }

  // ------------------------------------------------------ how full a turn is

  /** The tokens a tick may spend. */
  function TickBudget(e: Prefixes.Shape): nat {
    if e.batchCapacity > 0 then Min(e.budget, e.batchCapacity) else e.budget
  }

  /** What the first `offset` slots of the turn have spent. */
  function Spent(residents: nat, t: Tick, offset: nat): nat
    requires t.start < residents && offset <= residents
  {
    if offset == 0 then 0
    else
      var i := Rotate(residents, t.start, offset - 1);
      Spent(residents, t, offset - 1) + if i in t.advanced then t.advanced[i] else 0
  }

  /** The next forward of slot `i` needs more than `left` tokens. */
  ghost predicate TooWide(c: Config, w: World, slots: seq<Option<Running>>, i: nat, left: nat) {
    && c.Valid() && i < |slots| && slots[i].Some? && slots[i].value.job < |w.streams|
    && var at, prompt := slots[i].value.position, |w.streams[slots[i].value.job].request.prompt|;
    if c.shape.batchCapacity > 0 then left < (if at < prompt then Prefixes.BatchWidth(c.shape, at, prompt) else 1)
    else at < prompt && c.shape.uncaptured && left < Min(Min(prompt - at, c.shape.budget), c.shape.prefillTokens)
  }

  /** The turn dealt with `offset` slots within its budget, and went no further because it could not. */
  ghost predicate EndsAt(c: Config, w: World, slots: seq<Option<Running>>, t: Tick, offset: nat) {
    && t.start < c.residents == |slots| && offset <= c.residents && Spent(c.residents, t, offset) <= TickBudget(c.shape)
    && (forall i | i in t.occupied && i < c.residents ::
          if Distance(c.residents, t.start, i) < offset then i in t.advanced || i in t.skipped else i !in t.advanced)
    && (offset == c.residents || (c.shape.batchCapacity == 0 && Spent(c.residents, t, offset) == TickBudget(c.shape))
        || TooWide(c, w, slots, Rotate(c.residents, t.start, offset),
             TickBudget(c.shape) - Spent(c.residents, t, offset)))
  }

  /** A turn leaves nobody out whom its budget could have served. */
  ghost predicate Full(c: Config, w: World, slots: seq<Option<Running>>, t: Tick) {
    exists offset: nat :: EndsAt(c, w, slots, t, offset)
  }

  lemma TooWideEarlier(c: Config, a: World, b: World, was: seq<Option<Running>>, slots: seq<Option<Running>>,
                       i: nat, left: nat)
    requires TooWide(c, b, slots, i, left) && Grows(a, b) && JobsIn(a, was) && i < |was| && was[i] == slots[i]
    ensures TooWide(c, a, was, i, left)
  {
    assert b.streams[was[i].value.job].request == a.streams[was[i].value.job].request;
  }

  lemma FullEarlier(c: Config, a: World, b: World, slots: seq<Option<Running>>, t: Tick, next: nat)
    requires Full(c, b, slots, t) && Grows(a, b) && JobsIn(a, slots)
    ensures Full(c, a, slots, t.(next := next))
  {
    hide TooWide, Grows, JobsIn;
    var offset: nat :| EndsAt(c, b, slots, t, offset);
    var u := t.(next := next);
    SpentSame(c.residents, t, u, offset);
    if offset < c.residents {
      var i, left := Rotate(c.residents, t.start, offset), TickBudget(c.shape) - Spent(c.residents, t, offset);
      if TooWide(c, b, slots, i, left) {
        TooWideEarlier(c, a, b, slots, slots, i, left);
      }
    }
    assert EndsAt(c, a, slots, u, offset);
  }

  lemma {:induction false} SpentSame(residents: nat, t: Tick, u: Tick, offset: nat)
    requires t.start == u.start < residents && offset <= residents
    requires forall i | 0 <= i < residents && Distance(residents, t.start, i) < offset ::
      (i in t.advanced <==> i in u.advanced) && (i in t.advanced ==> t.advanced[i] == u.advanced[i])
    ensures Spent(residents, t, offset) == Spent(residents, u, offset)
  {
    if offset > 0 {
      SpentSame(residents, t, u, offset - 1);
    }
  }

  lemma SpentNext(residents: nat, t: Tick, offset: nat, v: Visited)
    requires t.start < residents && offset < residents && Rotate(residents, t.start, offset) !in t.advanced
    ensures Spent(residents, Noted(t, Rotate(residents, t.start, offset), v), offset + 1)
      == Spent(residents, t, offset) + if v.Advanced? then v.used else 0
  {
    var i := Rotate(residents, t.start, offset);
    SpentSame(residents, t, Noted(t, i, v), offset);
  }

  /** The end of a turn: everybody before `offset` was dealt with, nobody behind was, and there it had to stop. */
  lemma TurnIsFull(c: Config, w: World, was: seq<Option<Running>>, slots: seq<Option<Running>>, t: Tick, offset: nat,
                   next: nat)
    requires t.start < c.residents == |was| == |slots| && offset <= c.residents
    requires Swept(c.residents, t.start, offset, t.occupied, Dealt(t), slots)
    requires forall i | i in t.advanced && i < c.residents :: Distance(c.residents, t.start, i) < offset
    requires Spent(c.residents, t, offset) <= TickBudget(c.shape)
    requires offset == c.residents
      || (c.shape.batchCapacity == 0 && Spent(c.residents, t, offset) == TickBudget(c.shape))
      || TooWide(c, w, was, Rotate(c.residents, t.start, offset), TickBudget(c.shape) - Spent(c.residents, t, offset))
    ensures Full(c, w, was, t.(next := next))
  {
    DealtBefore(c.residents, t, offset, slots);
    hide TooWide, Swept, Distance;
    SpentSame(c.residents, t, t.(next := next), offset);
    assert EndsAt(c, w, was, t.(next := next), offset);
  }

  lemma DealtBefore(residents: nat, t: Tick, offset: nat, slots: seq<Option<Running>>)
    requires t.start < residents == |slots| && Swept(residents, t.start, offset, t.occupied, Dealt(t), slots)
    requires forall i | i in t.advanced && i < residents :: Distance(residents, t.start, i) < offset
    ensures forall i | i in t.occupied && i < residents ::
      if Distance(residents, t.start, i) < offset then i in t.advanced || i in t.skipped else i !in t.advanced
  {
    forall i | i in t.occupied && i < residents && Distance(residents, t.start, i) < offset
      ensures i in t.advanced || i in t.skipped
    {
      assert i in Dealt(t);
    }
  }

  /** A turn of nobody is full. */
  lemma EmptyIsFull(c: Config, w: World, slots: seq<Option<Running>>, t: Tick)
    requires t.start < c.residents == |slots| && t.occupied == {} && t.advanced == map[]
    ensures Full(c, w, slots, t)
  {
    SpentNothing(c.residents, t, c.residents);
    assert EndsAt(c, w, slots, t, c.residents);
  }

  lemma {:induction false} SpentNothing(residents: nat, t: Tick, offset: nat)
    requires t.start < residents && offset <= residents && t.advanced == map[]
    ensures Spent(residents, t, offset) == 0
  {
    if offset > 0 {
      SpentNothing(residents, t, offset - 1);
    }
  }

  lemma DeferredIsTooWide(c: Config, w: World, slots: seq<Option<Running>>, i: nat, left: nat)
    requires c.Valid() && c.shape.batchCapacity == 0 && i < |slots| && slots[i].Some?
    requires slots[i].value.job < |w.streams|
    requires var at, prompt := slots[i].value.position, |w.streams[slots[i].value.job].request.prompt|;
      at < prompt && Prefixes.Deferred(c.shape, at, prompt, left)
    ensures TooWide(c, w, slots, i, left)
  {
  }

  lemma NotYetAdvanced(c: Config, t: Tick, offset: nat, a: World, was: seq<Option<Running>>,
                       b: World, now: seq<Option<Running>>)
    requires Accounting(c, t, offset, a, was, b, now) && offset < c.residents
    ensures Rotate(c.residents, t.start, offset) !in t.advanced
    ensures now[Rotate(c.residents, t.start, offset)] == was[Rotate(c.residents, t.start, offset)]
  {
    hide TickMoves, Swept, Witnessed, ForwardsOk;
  }

  lemma StuckAt(c: Config, t: Tick, offset: nat, a: World, was: seq<Option<Running>>,
                b: World, now: seq<Option<Running>>, left: nat)
    requires Accounting(c, t, offset, a, was, b, now) && offset < c.residents
    requires TooWide(c, b, now, Rotate(c.residents, t.start, offset), left)
    ensures TooWide(c, a, was, Rotate(c.residents, t.start, offset), left)
  {
    NotYetAdvanced(c, t, offset, a, was, b, now);
    TooWideEarlier(c, a, b, was, now, Rotate(c.residents, t.start, offset), left);
  }

  lemma AccountingFull(c: Config, t: Tick, offset: nat, a: World, was: seq<Option<Running>>,
                       b: World, now: seq<Option<Running>>, next: nat)
    requires Accounting(c, t, offset, a, was, b, now) && offset <= c.residents
    requires Spent(c.residents, t, offset) <= TickBudget(c.shape)
    requires offset == c.residents
      || (c.shape.batchCapacity == 0 && Spent(c.residents, t, offset) == TickBudget(c.shape))
      || TooWide(c, a, was, Rotate(c.residents, t.start, offset), TickBudget(c.shape) - Spent(c.residents, t, offset))
    ensures Full(c, a, was, t.(next := next))
  {
    hide TickMoves, Swept, Witnessed, ForwardsOk, TooWide, EndsAt, Full;
    TurnIsFull(c, a, was, now, t, offset, next);
  }

  /** Who is past its prompt takes one token. */
  ghost predicate Decoding(w: World, slots: seq<Option<Running>>, i: nat) {
    i < |slots| && slots[i].Some? && slots[i].value.job < |w.streams|
    && |w.streams[slots[i].value.job].request.prompt| <= slots[i].value.position
  }

  lemma {:induction false} DecodersSpend(c: Config, w: World, was: seq<Option<Running>>, t: Tick, offset: nat)
    requires t.start < c.residents == |was| && offset <= c.residents && ForwardsOk(c, w, was, t)
    requires forall i: nat | i < |was| && was[i].Some? :: Decoding(w, was, i)
    ensures Spent(c.residents, t, offset) <= offset
  {
    if offset > 0 {
      DecodersSpend(c, w, was, t, offset - 1);
      var i := Rotate(c.residents, t.start, offset - 1);
      if i in t.advanced {
        assert ForwardAt(c, w, was, i, t.advanced[i]) && Decoding(w, was, i);
      }
    }
  }

  /** Main: with a budget of a token for each slot, residents that all decode are all advanced in the same tick. */
  lemma DecodersAdvanceTogether(c: Config, w: World, was: seq<Option<Running>>, t: Tick, i: nat)
    requires Full(c, w, was, t) && ForwardsOk(c, w, was, t) && c.residents <= TickBudget(c.shape)
    requires t.occupied == Occupied(was) && i in t.occupied && i !in t.skipped
    requires forall k: nat | k < |was| && was[k].Some? :: Decoding(w, was, k)
    ensures i in t.advanced
  {
    var offset: nat :| EndsAt(c, w, was, t, offset);
    DecodersSpend(c, w, was, t, offset);
  }
}
