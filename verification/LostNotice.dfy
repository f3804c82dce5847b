/** A run in which a client that never went away is left without a last item: its queue was full at shutdown. */
module LostNotice {
  import opened Requests
  import opened ServiceState
  import opened ServiceSteps
  import opened Rotation
  import opened Service
  import Prefixes

  const MODEL: Model := history => 0
  const SHAPE := Prefixes.Shape(1, true, [], 0, false, 1, 1)
  const CONFIG := Config(MODEL, SHAPE, 1, 1000, 1)
  const REQUEST := Request("patient", [0], 100, None, [])

  /** One patient client: it has read nothing and does nothing. */
  ghost predicate Patient(w: World) {
    && |w.streams| == 1 && w.open && w.streams[0].request == REQUEST
    && w.streams[0].drained == 0 && !w.streams[0].cancel && !w.streams[0].closed
  }

  /** Such a stream cannot have ended: a hundred tokens do not fit its queue. */
  lemma NotEnded(st: Stream, p: Place, open: bool)
    requires StreamOk(CONFIG, st, p, open) && st.request == REQUEST && st.drained == 0 && st.notice.None?
    ensures !Ended(st.sent)
  {
    if st.sent != [] {
      NoFinish(st.cached, |st.sent| - 1);
    }
  }

  lemma NoFinish(cached: nat, k: nat)
    ensures k < REQUEST.maxTokens - 1 ==> Expected(MODEL, REQUEST, cached, k).finish.None?
  {
  }

  lemma ZeroTaken(w: World, slots: seq<Option<Running>>, place: seq<Place>)
    requires WorldOk(CONFIG, w, slots, place) && Front(w) > 0
    ensures 0 !in w.queue
  {
    forall k | 0 <= k < |w.queue| ensures w.queue[k] != 0 {
      assert k > 0 ==> w.queue[0] < w.queue[k];
    }
  }

  /** So once taken from the queue it is resident. */
  lemma StillResident(w: World, slots: seq<Option<Running>>, place: seq<Place>)
    requires WorldOk(CONFIG, w, slots, place) && Patient(w) && Front(w) > 0 && |slots| == 1
    requires forall j | 0 <= j < |place| :: !InWorkerLocal(place[j])
    ensures slots[0].Some? && slots[0].value.job == 0
  {
    JobFacts(CONFIG, w, slots, place, 0);
    QueuedIsListed(CONFIG, w, slots, place, 0);
    ZeroTaken(w, slots, place);
    NotEnded(w.streams[0], place[0], w.open);
    assert place[0].Resident?;
  }

  lemma SameDeeds(a: World, b: World)
    requires Deeds(a.streams) == Deeds(b.streams) && |a.streams| == 1 && Grows(a, b) && a.open == b.open
    ensures |b.streams| == 1 && (Patient(a) ==> Patient(b))
  {
    assert |Deeds(b.streams)| == |b.streams|;
    assert Deeds(a.streams)[0] == (a.streams[0].drained, a.streams[0].cancel, a.streams[0].closed);
    assert Deeds(b.streams)[0] == (b.streams[0].drained, b.streams[0].cancel, b.streams[0].closed);
  }

  /** In one iteration the only resident moves on, as long as its queue has room. */
  lemma RoundAdvances(r: Round)
    requires RoundOk(CONFIG, r) && Fair(1, r.tick) && Patient(r.found) && Patient(r.ended)
    requires r.was[0].Some? && r.found.streams[0].Room()
    ensures r.was[0].value.job == 0 && |r.now| == 1 && Moved(r.was[0], r.now[0])
    ensures r.held[0].Some? ==> r.held[0] == r.was[0] || r.held[0].value.job != 0
    ensures Front(r.ended) > 0
  {
    assert Readmitted(r.found, r.began, r.held[0], r.was[0]);
    assert SameJob(r.found.streams[0].(cached := r.began.streams[0].cached), r.began.streams[0]);
    assert Ready(r, 0);
    ReadyIsMet(CONFIG, r, 0);
  }

  /** Its position is the number of tokens it was sent. */
  lemma PositionIsSent(w: World, slots: seq<Option<Running>>, engine: seq<seq<Token>>, place: seq<Place>)
    requires WorldOk(CONFIG, w, slots, place) && SlotsOk(CONFIG, w, slots, engine) && Patient(w)
    requires |slots| == 1 && slots[0].Some? && slots[0].value.job == 0
    ensures slots[0].value.position == |w.streams[0].sent| <= OUTPUT_CAPACITY
  {
    JobFacts(CONFIG, w, slots, place, 0);
    assert SlotOk(CONFIG, w, slots, engine, 0);
  }

  function Progress(slots: seq<Option<Running>>): nat
    requires |slots| == 1
  {
    if slots[0].Some? then slots[0].value.position + 1 else 0
  }

  /** Serves the patient client until its queue is full. */
  method Fill(b: Backend)
    requires b.c == CONFIG && !b.faulty && b.horizon == 0 && b.Free() && SlotsOk(CONFIG, b.w, b.slots, b.engine)
    requires Patient(b.w) && !b.w.stop && b.slots[0].None? && b.w.streams[0].sent == []
    modifies b
    ensures b.Free() && b.horizon == 0 && Patient(b.w) && !b.w.streams[0].Room()
    ensures b.slots[0].Some? && b.slots[0].value.job == 0
  {
    hide WorldOk, Deeds, SlotsOk, Fair, RoundOk;
    while b.w.streams[0].Room()
      invariant b.Free() && SlotsOk(CONFIG, b.w, b.slots, b.engine) && b.horizon == 0 && !b.w.stop && Patient(b.w)
      invariant b.slots[0].Some? ==> b.slots[0].value.job == 0
      invariant b.slots[0].None? ==> b.w.streams[0].sent == []
      invariant Progress(b.slots) <= OUTPUT_CAPACITY + 1
      decreases OUTPUT_CAPACITY + 1 - Progress(b.slots)
    {
      ghost var before := b.w;
      var ok, idle := b.Iterate();
      SameDeeds(before, b.w);
      ghost var r := b.log[|b.log| - 1];
      if idle {
        FoundFree(r);
        StillResident(b.w, b.slots, b.place);
        assert false;
      }
      SomebodyThere(r);
      RoundAdvances(r);
      StillResident(b.w, b.slots, b.place);
      PositionIsSent(b.w, b.slots, b.engine, b.place);
    }
  }

  lemma FoundFree(r: Round)
    requires RoundOk(CONFIG, r) && r.was[0].None? && r.began.queue == [] && Patient(r.began)
    ensures Front(r.began) > 0
  {
  }

  lemma SomebodyThere(r: Round)
    requires RoundOk(CONFIG, r) && !(forall i | 0 <= i < CONFIG.residents :: r.was[i].None?)
    ensures r.was[0].Some?
  {
  }

  /** Main: 64 unread tokens, then shutdown. The client did nothing wrong and gets no last item. */
  method Lose() returns (b: Backend)
    ensures b.c == CONFIG && b.Free() && Stopped(b.w, b.slots) && |b.w.streams| == 1
    ensures var st := b.w.streams[0];
      && !st.Cancelled() && !Ended(st.sent)
      && st.drained == 0 && |st.sent| == OUTPUT_CAPACITY && st.notice == Some(0)
  {
    hide WorldOk, Deeds, SlotsOk;
    b := new Backend(CONFIG, 0, false);
    var healthy := b.Health();
    var reply := b.GenerateSubmit(REQUEST, healthy);
    b.GenerateInsert();
    NobodySeated(b.w, b.slots, b.engine);
    Fill(b);
    b.Shutdown();
    ghost var full, slots := b.w, b.slots;
    var _ := b.Close(true);
    NoticeMissed(full, slots, b.w, b.slots, b.place);
  }

  lemma NobodySeated(w: World, slots: seq<Option<Running>>, engine: seq<seq<Token>>)
    requires |slots| == |engine| && forall i | 0 <= i < |slots| :: slots[i].None?
    ensures SlotsOk(CONFIG, w, slots, engine)
  {
  }

  lemma NoticeMissed(a: World, slots: seq<Option<Running>>, b: World, now: seq<Option<Running>>, place: seq<Place>)
    requires Patient(a) && !a.streams[0].Room() && |slots| == 1 && slots[0].Some? && slots[0].value.job == 0
    requires WoundUp(a, slots, b) && Deeds(a.streams) == Deeds(b.streams)
    requires WorldOk(CONFIG, b, now, place)
    ensures |b.streams| == 1
    ensures var st := b.streams[0];
      && !st.Cancelled() && !Ended(st.sent)
      && st.drained == 0 && |st.sent| == OUTPUT_CAPACITY && st.notice == Some(0)
  {
    assert Held(slots, 0);
    assert Parted(a.streams[0], b.streams[0]);
    assert Deeds(a.streams)[0] == (a.streams[0].drained, a.streams[0].cancel, a.streams[0].closed);
    assert Deeds(b.streams)[0] == (b.streams[0].drained, b.streams[0].cancel, b.streams[0].closed);
    JobFacts(CONFIG, b, now, place, 0);
  }
}
