/** The atomic steps of clients and worker on the shared state, each shown to keep it in order. */
module ServiceSteps {
  import opened Requests
  import opened ServiceState

  lemma DeliveredExtends(c: Config, st: Stream, item: Item)
    requires Delivered(c.model, st.request, st.cached, st.sent) && !Ended(st.sent)
    requires item.Output? ==> item == Expected(c.model, st.request, st.cached, |st.sent|)
    ensures Delivered(c.model, st.request, st.cached, st.sent + [item])
  {
  }

  /** Replacing a stream by one of the same request does not touch the registry's meaning. */
  lemma KeepsRegistry(was: World, now: World, place: seq<Place>, job: nat)
    requires |was.streams| == |place| && Registered(was, place) && job < |place|
    requires |now.streams| == |was.streams| && now.streams == was.streams[job := now.streams[job]]
    requires now.streams[job].request == was.streams[job].request
    requires now.registry == was.registry && now.holder == was.holder && now.open == was.open
    ensures Registered(now, place)
  {
    forall j | 0 <= j < |place| && Owned(place[j])
      ensures now.holder == Some(j) || Entered(now, j)
    {
      assert was.holder == Some(j) || Entered(was, j);
    }
  }

  /** Moving one job between places that agree on ownership, or out of ownership once the queue is closed. */
  lemma RegisteredFrame(w: World, was: seq<Place>, now: seq<Place>)
    requires |was| == |now| == |w.streams| && Registered(w, was)
    requires forall j | 0 <= j < |was| :: Owned(now[j]) ==> Owned(was[j])
    requires forall j | 0 <= j < |was| :: w.open ==> Owned(now[j]) == Owned(was[j])
    ensures Registered(w, now)
  {
    forall j | 0 <= j < |now| && Owned(now[j])
      ensures w.holder == Some(j) || Entered(w, j)
    {
      assert Owned(was[j]);
    }
  }

  /** One job changes its place, and the slots with it. */
  lemma MoveKeeps(c: Config, w: World, slots: seq<Option<Running>>, slots': seq<Option<Running>>,
                  place: seq<Place>, job: nat, to: Place)
    requires WorldOk(c, w, slots, place) && job < |place| && job < |w.streams|
    requires Placed(w, slots', place[job := to]) && StreamOk(c, w.streams[job], to, w.open)
    requires Owned(to) == Owned(place[job]) || (!w.open && !Owned(to))
    ensures WorldOk(c, w, slots', place[job := to])
  {
    hide StreamOk, Registered, Placed;
    WorldSizes(w, slots, place);
    RegisteredFrame(w, place, place[job := to]);
  }

  /** Setting the cancel flag of every listed id that has a registry entry. */
  function AbortAll(w: World, ids: seq<string>): World {
    if ids == [] then w
    else
      var before, id := AbortAll(w, ids[..|ids| - 1]), ids[|ids| - 1];
      if id in before.registry && before.registry[id] < |before.streams| then
        var job := before.registry[id];
        before.(streams := before.streams[job := before.streams[job].(cancel := true)])
      else before
  }

  /** Abort reaches exactly the registered jobs among the ids, and does nothing else to any of them. */
  lemma {:induction false} AbortReachesRegistered(w: World, place: seq<Place>, ids: seq<string>, j: nat)
    requires |place| == |w.streams| && Registered(w, place) && j < |w.streams|
    ensures var after := AbortAll(w, ids);
      && after == w.(streams := after.streams) && |after.streams| == |w.streams|
      && after.streams[j] == w.streams[j].(
           cancel := w.streams[j].cancel || (Entered(w, j) && w.streams[j].request.id in ids))
    decreases |ids|
  {
    if ids != [] {
      AbortReachesRegistered(w, place, ids[..|ids| - 1], j);
      var id := ids[|ids| - 1];
      if id in w.registry && w.registry[id] == j {
        assert w.streams[j].request.id == id;
      }
    }
  }

  /** The shared state after a generate call has pushed its job, still inside the registry lock. */
  function Submitted(w: World, req: Request): World {
    var job := |w.streams|;
    w.(streams := w.streams + [Stream(req, 0, [], 0, false, false, None)], queue := w.queue + [job],
      holder := Some(job))
  }

  lemma SubmitPlaced(w: World, slots: seq<Option<Running>>, place: seq<Place>, req: Request)
    requires Placed(w, slots, place)
    ensures Placed(Submitted(w, req), slots, place + [Queued])
  {
  }

  lemma SubmitRegistered(w: World, place: seq<Place>, req: Request)
    requires |place| == |w.streams| && Registered(w, place) && w.holder.None? && req.id !in w.registry
    ensures Registered(Submitted(w, req), place + [Queued])
  {
    var after, now := Submitted(w, req), place + [Queued];
    forall j | 0 <= j < |now| && Owned(now[j])
      ensures after.holder == Some(j) || Entered(after, j)
    {
      if j < |place| {
        assert Entered(w, j);
      }
    }
  }

  lemma SubmitKeeps(c: Config, w: World, slots: seq<Option<Running>>, place: seq<Place>, req: Request)
    requires WorldOk(c, w, slots, place) && w.holder.None? && req.id !in w.registry && w.open
    requires Admissible(req, c.context, c.vocab)
    ensures WorldOk(c, Submitted(w, req), slots, place + [Queued])
    ensures Later(w, Submitted(w, req)) && Extends(place, place + [Queued])
  {
    SubmitPlaced(w, slots, place, req);
    SubmitRegistered(w, place, req);
  }

  lemma PopPlaced(w: World, slots: seq<Option<Running>>, place: seq<Place>)
    requires Placed(w, slots, place) && w.queue != []
    ensures Placed(w.(queue := w.queue[1..]), slots, place[w.queue[0] := InHand])
  {
    forall j | 0 <= j < |place| && place[j].Queued? && j != w.queue[0]
      ensures j in w.queue[1..]
    {
      assert j in w.queue;
    }
  }

  /** No two slots hold the same job. */
  lemma DistinctSlots(c: Config, w: World, slots: seq<Option<Running>>, place: seq<Place>)
    requires WorldOk(c, w, slots, place)
    ensures DistinctJobs(slots) && JobsIn(w, slots)
  {
  }

  /** Residents were accepted before anything still queued. */
  lemma ResidentsBelowFront(c: Config, w: World, slots: seq<Option<Running>>, place: seq<Place>)
    requires WorldOk(c, w, slots, place)
    ensures JobsBelow(slots, Front(w)) && Front(w) <= |w.streams|
  {
  }

  lemma QueueOrdered(c: Config, w: World, slots: seq<Option<Running>>, place: seq<Place>)
    requires WorldOk(c, w, slots, place) && w.queue != []
    ensures Heads(w.queue[0], w.queue[1..])
  {
  }

  /** Taking the head of the queue into the worker's hand. */
  lemma PopKeeps(c: Config, w: World, slots: seq<Option<Running>>, place: seq<Place>)
    requires WorldOk(c, w, slots, place) && w.queue != []
    ensures w.queue[0] < |place| == |w.streams| && w.streams[w.queue[0]].sent == [] && place[w.queue[0]].Queued?
    ensures WorldOk(c, w.(queue := w.queue[1..]), slots, place[w.queue[0] := InHand])
    ensures Still(w, w.(queue := w.queue[1..]))
  {
    hide StreamOk, Registered, Placed, Deeds;
    WorldSizes(w, slots, place);
    HeadQueued(w, slots, place);
    PopPlaced(w, slots, place);
    var now := place[w.queue[0] := InHand];
    RegisteredFrame(w, place, now);
    RegisteredSame(w, w.(queue := w.queue[1..]), now);
    HeadStream(c, w.streams[w.queue[0]], w.open);
  }

  lemma HeadQueued(w: World, slots: seq<Option<Running>>, place: seq<Place>)
    requires Placed(w, slots, place) && w.queue != []
    ensures w.queue[0] < |place| && place[w.queue[0]].Queued?
    ensures Front(w) <= Front(w.(queue := w.queue[1..]))
  {
  }

  /** The queue is of no concern to the registry. */
  lemma RegisteredSame(w: World, v: World, place: seq<Place>)
    requires |place| == |w.streams| && Registered(w, place)
    requires v == w.(queue := v.queue)
    ensures Registered(v, place)
  {
    forall j | 0 <= j < |place| && Owned(place[j]) ensures v.holder == Some(j) || Entered(v, j) {
      assert w.holder == Some(j) || Entered(w, j);
    }
  }

  lemma HeadStream(c: Config, st: Stream, open: bool)
    ensures StreamOk(c, st, Queued, open) ==> st.sent == [] && StreamOk(c, st, InHand, open)
  {
  }

  /** What the world says about one job. */
  lemma JobFacts(c: Config, w: World, slots: seq<Option<Running>>, place: seq<Place>, j: nat)
    requires WorldOk(c, w, slots, place) && j < |w.streams|
    ensures StreamOk(c, w.streams[j], place[j], w.open)
    ensures Owned(place[j]) && w.holder.None? ==> Entered(w, j)
  {
  }

  lemma SlotFacts(c: Config, w: World, slots: seq<Option<Running>>, place: seq<Place>, i: nat)
    requires WorldOk(c, w, slots, place) && i < |slots| && slots[i].Some?
    ensures slots[i].value.job < |w.streams| == |place| && place[slots[i].value.job] == Resident(i)
    ensures StreamOk(c, w.streams[slots[i].value.job], Resident(i), w.open)
  {
  }

  /** The worlds differ in one stream, and there not in the request. */
  ghost predicate Replaced(was: World, now: World, job: nat) {
    && job < |was.streams| == |now.streams|
    && now == was.(streams := was.streams[job := now.streams[job]])
    && now.streams[job].request == was.streams[job].request
  }

  lemma TouchKeeps(c: Config, was: World, now: World, slots: seq<Option<Running>>, place: seq<Place>, job: nat)
    requires WorldOk(c, was, slots, place) && Replaced(was, now, job)
    requires StreamOk(c, now.streams[job], place[job], now.open)
    ensures WorldOk(c, now, slots, place) && Undisturbed(was, now, job)
  {
    KeepsRegistry(was, now, place, job);
  }

  /** Cancelling, dropping a receiver and consuming an item are steps any client may take. */
  lemma FlagKeeps(c: Config, was: World, now: World, slots: seq<Option<Running>>, place: seq<Place>, job: nat)
    requires WorldOk(c, was, slots, place) && Replaced(was, now, job)
    requires SameJob(was.streams[job], now.streams[job]) && now.streams[job].drained <= |now.streams[job].sent|
    ensures WorldOk(c, now, slots, place) && Later(was, now)
  {
    JobFacts(c, was, slots, place, job);
    TouchKeeps(c, was, now, slots, place, job);
  }

  function Inserted(w: World): World
    requires w.holder.Some? && w.holder.value < |w.streams|
  {
    w.(registry := w.registry[w.streams[w.holder.value].request.id := w.holder.value], holder := None)
  }

  lemma InsertKeeps(c: Config, w: World, slots: seq<Option<Running>>, place: seq<Place>)
    requires WorldOk(c, w, slots, place) && w.holder.Some?
    ensures w.holder.value < |w.streams|
    ensures WorldOk(c, Inserted(w), slots, place) && Later(w, Inserted(w))
  {
    forall j | 0 <= j < |place| && Owned(place[j]) ensures Entered(Inserted(w), j) {
      assert w.holder == Some(j) || Entered(w, j);
    }
    assert Registered(Inserted(w), place);
  }

  lemma StopKeeps(c: Config, w: World, slots: seq<Option<Running>>, place: seq<Place>)
    requires WorldOk(c, w, slots, place)
    ensures WorldOk(c, w.(stop := true), slots, place) && Later(w, w.(stop := true))
  {
    forall j | 0 <= j < |place| && Owned(place[j])
      ensures w.holder == Some(j) || Entered(w.(stop := true), j)
    {
      assert w.holder == Some(j) || Entered(w, j);
    }
  }

  /** Closing the queue only weakens what the registry and departed streams must satisfy. */
  lemma CloseKeeps(c: Config, w: World, slots: seq<Option<Running>>, place: seq<Place>)
    requires WorldOk(c, w, slots, place)
    ensures WorldOk(c, w.(open := false), slots, place)
  {
    forall j | 0 <= j < |place| && Owned(place[j])
      ensures w.holder == Some(j) || Entered(w.(open := false), j)
    {
      assert w.holder == Some(j) || Entered(w, j);
    }
  }

  function Unregistered(w: World, job: nat): World
    requires job < |w.streams|
  {
    w.(registry := w.registry - {w.streams[job].request.id})
  }

  lemma UnregisterRegistered(w: World, place: seq<Place>, job: nat)
    requires |place| == |w.streams| && job < |place| && Registered(w, place) && w.holder.None? && Owned(place[job])
    ensures Registered(Unregistered(w, job), place[job := Publishing])
  {
    assert Entered(w, job);
    forall j | 0 <= j < |place| && j != job && Owned(place[j])
      ensures Entered(Unregistered(w, job), j)
    {
      assert Entered(w, j);
    }
  }

  lemma UnregisterKeeps(c: Config, w: World, slots: seq<Option<Running>>, place: seq<Place>, job: nat)
    requires WorldOk(c, w, slots, place) && w.holder.None?
    requires job < |place| && (place[job].InHand? || place[job].Ending?)
    ensures job < |w.streams| && WorldOk(c, Unregistered(w, job), slots, place[job := Publishing])
    ensures Calm(w, Unregistered(w, job))
  {
    hide Registered, Placed, StreamOk;
    WorldSizes(w, slots, place);
    UnregisterRegistered(w, place, job);
    PublishingPlaced(w, slots, place, job);
    forall j | 0 <= j < |w.streams| ensures StreamOk(c, w.streams[j], place[job := Publishing][j], w.open) {
      if j == job {
        PublishingStream(c, w.streams[j], place[j], w.open);
      }
    }
  }

  lemma WorldSizes(w: World, slots: seq<Option<Running>>, place: seq<Place>)
    requires Placed(w, slots, place)
    ensures |place| == |w.streams|
  {
  }

  lemma PublishingPlaced(w: World, slots: seq<Option<Running>>, place: seq<Place>, job: nat)
    requires Placed(w, slots, place) && job < |place| == |w.streams| && (place[job].InHand? || place[job].Ending?)
    ensures Placed(Unregistered(w, job), slots, place[job := Publishing])
  {
  }

  lemma PublishingStream(c: Config, st: Stream, p: Place, open: bool)
    requires StreamOk(c, st, p, open) && (p.InHand? || p.Ending?)
    ensures StreamOk(c, st, Publishing, open)
  {
  }

  lemma RetireKeeps(c: Config, w: World, slots: seq<Option<Running>>, place: seq<Place>, job: nat)
    requires WorldOk(c, w, slots, place) && job < |place| && place[job].Publishing?
    requires job < |w.streams|
    requires var st := w.streams[job]; Ended(st.sent) || st.Cancelled() || st.notice.Some?
    ensures WorldOk(c, w, slots, place[job := Gone])
  {
    JobFacts(c, w, slots, place, job);
    MovedPlaced(w, slots, place, job, Gone);
    MoveKeeps(c, w, slots, slots, place, job, Gone);
  }

  /** Between places in nobody's slot or queue, moving a job changes nothing for the others. */
  lemma MovedPlaced(w: World, slots: seq<Option<Running>>, place: seq<Place>, job: nat, to: Place)
    requires Placed(w, slots, place) && job < |place| && !place[job].Queued? && !place[job].Resident?
    requires !to.Queued? && !to.Resident?
    ensures Placed(w, slots, place[job := to])
  {
  }

  lemma EndingKeeps(c: Config, w: World, slots: seq<Option<Running>>, place: seq<Place>, job: nat)
    requires WorldOk(c, w, slots, place) && job < |place| && place[job].InHand?
    ensures WorldOk(c, w, slots, place[job := Ending])
    ensures job < |w.streams| && !Ended(w.streams[job].sent) && w.streams[job].notice.None?
  {
    hide WorldOk, Placed;
    WorldPlaced(c, w, slots, place);
    WorldSizes(w, slots, place);
    JobFacts(c, w, slots, place, job);
    MovedPlaced(w, slots, place, job, Ending);
    MoveKeeps(c, w, slots, slots, place, job, Ending);
  }

  lemma TakePlaced(w: World, slots: seq<Option<Running>>, place: seq<Place>, i: nat)
    requires Placed(w, slots, place) && i < |slots| && slots[i].Some?
    ensures slots[i].value.job < |place|
    ensures Placed(w, slots[i := None], place[slots[i].value.job := InHand])
  {
  }

  lemma TakeKeeps(c: Config, w: World, slots: seq<Option<Running>>, place: seq<Place>, i: nat)
    requires WorldOk(c, w, slots, place) && i < |slots| && slots[i].Some?
    ensures slots[i].value.job < |place|
    ensures WorldOk(c, w, slots[i := None], place[slots[i].value.job := InHand])
  {
    hide WorldOk, Placed;
    WorldPlaced(c, w, slots, place);
    SlotFacts(c, w, slots, place, i);
    TakePlaced(w, slots, place, i);
    MoveKeeps(c, w, slots, slots[i := None], place, slots[i].value.job, InHand);
  }

  lemma SeatPlaced(w: World, slots: seq<Option<Running>>, place: seq<Place>, i: nat, r: Running)
    requires Placed(w, slots, place) && i < |slots| && slots[i].None? && r.job < |place| && place[r.job].InHand?
    ensures Placed(w, slots[i := Some(r)], place[r.job := Resident(i)])
  {
  }

  lemma SeatKeeps(c: Config, w: World, slots: seq<Option<Running>>, place: seq<Place>, i: nat, r: Running)
    requires WorldOk(c, w, slots, place) && i < |slots| && slots[i].None?
    requires r.job < |place| && place[r.job].InHand?
    ensures WorldOk(c, w, slots[i := Some(r)], place[r.job := Resident(i)])
  {
    hide WorldOk, Placed;
    WorldPlaced(c, w, slots, place);
    WorldSizes(w, slots, place);
    JobFacts(c, w, slots, place, r.job);
    SeatPlaced(w, slots, place, i, r);
    MoveKeeps(c, w, slots, slots[i := Some(r)], place, r.job, Resident(i));
  }

  lemma RunKeeps(c: Config, w: World, slots: seq<Option<Running>>, place: seq<Place>, i: nat, r: Running)
    requires WorldOk(c, w, slots, place) && i < |slots| && slots[i].Some? && r.job == slots[i].value.job
    ensures WorldOk(c, w, slots[i := Some(r)], place)
  {
  }

  function Sent(w: World, job: nat, item: Item): World
    requires job < |w.streams|
  {
    w.(streams := w.streams[job := w.streams[job].(sent := w.streams[job].sent + [item])])
  }

  lemma SendKeeps(c: Config, w: World, slots: seq<Option<Running>>, place: seq<Place>, job: nat, item: Item)
    requires WorldOk(c, w, slots, place) && job < |w.streams| && job < |place|
    requires w.streams[job].Room() && !Ended(w.streams[job].sent) && w.streams[job].notice.None?
    requires var st := w.streams[job]; item == Expected(c.model, st.request, st.cached, |st.sent|)
    requires place[job].Publishing? || (place[job].Resident? && !item.Terminal())
    ensures WorldOk(c, Sent(w, job, item), slots, place) && Undisturbed(w, Sent(w, job, item), job)
    ensures Still(w, Sent(w, job, item))
  {
    hide WorldOk;
    JobFacts(c, w, slots, place, job);
    SentStream(c, w, job, item, place[job]);
    TouchKeeps(c, w, Sent(w, job, item), slots, place, job);
  }

  lemma SentStream(c: Config, w: World, job: nat, item: Item, p: Place)
    requires job < |w.streams| && StreamOk(c, w.streams[job], p, w.open)
    requires w.streams[job].Room() && !Ended(w.streams[job].sent) && w.streams[job].notice.None?
    requires var st := w.streams[job]; item == Expected(c.model, st.request, st.cached, |st.sent|)
    requires p.Publishing? || (p.Resident? && !item.Terminal())
    ensures StreamOk(c, Sent(w, job, item).streams[job], p, w.open)
  {
    DeliveredExtends(c, w.streams[job], item);
  }

  /** Telling a job how much of its prompt was restored. */
  lemma CachedKeeps(w: World, job: nat, cached: nat)
    requires job < |w.streams|
    ensures var after := w.(streams := w.streams[job := w.streams[job].(cached := cached)]);
      Still(w, after) && Admitting(w, after)
  {
    var after := w.(streams := w.streams[job := w.streams[job].(cached := cached)]);
    assert Deeds(w.streams) == Deeds(after.streams);
  }

  lemma CalmAdmits(a: World, b: World)
    requires Calm(a, b)
    ensures Admitting(a, b)
  {
    forall k | 0 <= k < |a.streams| ensures SameJob(a.streams[k].(cached := b.streams[k].cached), b.streams[k]) {
      assert SameJob(a.streams[k], b.streams[k]);
    }
  }

  /** The failure notice: one item if the receiver is there and has room, and a note of what it had read. */
  function Noticed(w: World, job: nat): World
    requires job < |w.streams|
  {
    var st := w.streams[job];
    w.(streams := w.streams[job := st.(
         sent := if !st.closed && st.Room() then st.sent + [Failure] else st.sent, notice := Some(st.drained))])
  }

  lemma NoticeKeeps(c: Config, w: World, slots: seq<Option<Running>>, place: seq<Place>, job: nat)
    requires WorldOk(c, w, slots, place) && job < |w.streams| && job < |place| && !w.open
    requires !Ended(w.streams[job].sent) && w.streams[job].notice.None?
    requires place[job].Publishing? || place[job].Ending?
    ensures WorldOk(c, Noticed(w, job), slots, place) && Undisturbed(w, Noticed(w, job), job)
    ensures Still(w, Noticed(w, job))
    ensures Parted(w.streams[job], Noticed(w, job).streams[job])
  {
    hide WorldOk;
    JobFacts(c, w, slots, place, job);
    NoticeStream(c, w, job, place[job]);
    TouchKeeps(c, w, Noticed(w, job), slots, place, job);
  }

  lemma NoticeStream(c: Config, w: World, job: nat, p: Place)
    requires job < |w.streams| && StreamOk(c, w.streams[job], p, w.open) && !w.open && (p.Publishing? || p.Ending?)
    requires !Ended(w.streams[job].sent) && w.streams[job].notice.None?
    ensures StreamOk(c, Noticed(w, job).streams[job], p, w.open)
    ensures Parted(w.streams[job], Noticed(w, job).streams[job])
  {
    hide Delivered, NoticeOk, Admissible, Ended, Outputs, Parted;
    DeliveredExtends(c, w.streams[job], Failure);
    NoticeTaken(w.streams[job]);
  }

  lemma NoticeTaken(st: Stream)
    requires !Ended(st.sent) && NoticeOk(st) && st.notice.None?
    requires st.drained <= |st.sent| <= st.drained + OUTPUT_CAPACITY
    ensures Outputs(st.sent) == st.sent && Outputs(st.sent + [Failure]) == st.sent
    ensures var sent := if !st.closed && st.Room() then st.sent + [Failure] else st.sent;
      && NoticeOk(st.(sent := sent, notice := Some(st.drained)))
      && Parted(st, st.(sent := sent, notice := Some(st.drained)))
  {
    assert Outputs(st.sent + [Failure]) == st.sent;
  }

  /** What was parted with stays so, whatever clients do. */
  lemma PartedStays(a: Stream, b: Stream, d: Stream)
    requires SameJob(b, d)
    ensures Parted(a, b) ==> Parted(a, d)
    ensures SameJob(a, b) ==> SameJob(a, d)
  {
  }

  lemma PartedLater(a: Stream, b: Stream, d: Stream)
    requires SameJob(a, b) && Parted(b, d)
    ensures Parted(a, d)
  {
  }

  /** Popping the queue after it has been closed: the registry entry stays for the final clear. */
  lemma DrainKeeps(c: Config, w: World, slots: seq<Option<Running>>, place: seq<Place>)
    requires WorldOk(c, w, slots, place) && w.queue != [] && !w.open
    ensures w.queue[0] < |place| == |w.streams| && place[w.queue[0]].Queued?
    ensures w.streams[w.queue[0]].sent == [] && w.streams[w.queue[0]].notice.None?
    ensures WorldOk(c, w.(queue := w.queue[1..]), slots, place[w.queue[0] := Publishing])
    ensures Still(w, w.(queue := w.queue[1..]))
  {
    hide WorldOk;
    PopKeeps(c, w, slots, place);
    JobFacts(c, w, slots, place, w.queue[0]);
    var now := place[w.queue[0] := InHand];
    LeaveClosed(c, w.(queue := w.queue[1..]), slots, now, w.queue[0]);
    assert now[w.queue[0] := Publishing] == place[w.queue[0] := Publishing];
  }

  lemma LeaveClosed(c: Config, w: World, slots: seq<Option<Running>>, place: seq<Place>, job: nat)
    requires WorldOk(c, w, slots, place) && !w.open && job < |place| && place[job].InHand?
    ensures WorldOk(c, w, slots, place[job := Publishing])
  {
    hide WorldOk, Placed;
    WorldPlaced(c, w, slots, place);
    WorldSizes(w, slots, place);
    JobFacts(c, w, slots, place, job);
    MovedPlaced(w, slots, place, job, Publishing);
    MoveKeeps(c, w, slots, slots, place, job, Publishing);
  }

  lemma WorldPlaced(c: Config, w: World, slots: seq<Option<Running>>, place: seq<Place>)
    requires WorldOk(c, w, slots, place)
    ensures Placed(w, slots, place)
  {
  }

  lemma RegistryInRange(c: Config, w: World, slots: seq<Option<Running>>, place: seq<Place>, id: string)
    requires WorldOk(c, w, slots, place) && id in w.registry
    ensures w.registry[id] < |w.streams|
  {
  }

  lemma {:induction false} AbortKeepsQueue(w: World, ids: seq<string>)
    ensures AbortAll(w, ids).queue == w.queue
  {
    if ids != [] {
      AbortKeepsQueue(w, ids[..|ids| - 1]);
    }
  }

  lemma QueuedIsListed(c: Config, w: World, slots: seq<Option<Running>>, place: seq<Place>, j: nat)
    requires WorldOk(c, w, slots, place) && j < |place|
    ensures place[j].Queued? ==> j in w.queue
  {
  }

  /** With empty slots, an empty queue and an empty hand, every job is gone. */
  lemma NobodyLeft(c: Config, w: World, slots: seq<Option<Running>>, place: seq<Place>)
    requires WorldOk(c, w, slots, place) && w.queue == []
    requires forall i | 0 <= i < |slots| :: slots[i].None?
    requires forall j | 0 <= j < |place| :: !InWorkerLocal(place[j])
    ensures forall j | 0 <= j < |place| :: place[j].Gone?
  {
    forall j | 0 <= j < |place| ensures place[j].Gone? {
      QueuedIsListed(c, w, slots, place, j);
    }
  }

  lemma QueueHead(c: Config, w: World, slots: seq<Option<Running>>, place: seq<Place>)
    requires WorldOk(c, w, slots, place) && w.queue != []
    ensures w.queue[0] < |place| && place[w.queue[0]].Queued?
  {
  }

  // ------------------------------------------------------------- shutting down

  /** Since the queue was closed in world `a`: who has left since was parted with, the others only saw clients. */
  ghost predicate Closing(a: World, were: seq<Place>, b: World, now: seq<Place>) {
    && |a.streams| == |b.streams| == |were| == |now|
    && forall j: nat | j < |a.streams| ::
         if now[j] == were[j] then SameJob(a.streams[j], b.streams[j])
         else now[j].Gone? && Parted(a.streams[j], b.streams[j])
  }

  lemma ClosingStart(w: World, place: seq<Place>)
    requires |w.streams| == |place|
    ensures Closing(w, place, w, place)
  {
  }

  lemma ClosingNext(a: World, were: seq<Place>, b: World, mid: seq<Place>, d: World, job: nat)
    requires Closing(a, were, b, mid) && Undisturbed(b, d, job) && |d.streams| == |b.streams|
    requires job < |mid| && !mid[job].Gone? && Parted(b.streams[job], d.streams[job])
    ensures Closing(a, were, d, mid[job := Gone])
  {
    hide Parted;
    forall j: nat | j < |a.streams| && j != job
      ensures if mid[j] == were[j] then SameJob(a.streams[j], d.streams[j]) else Parted(a.streams[j], d.streams[j])
    {
      PartedStays(a.streams[j], b.streams[j], d.streams[j]);
    }
    PartedLater(a.streams[job], b.streams[job], d.streams[job]);
  }

  lemma ClosingLater(a: World, were: seq<Place>, b: World, mid: seq<Place>, d: World, now: seq<Place>)
    requires Closing(a, were, b, mid) && Later(b, d) && !b.open
    requires Extends(mid, now) && |now| == |d.streams|
    ensures Closing(a, were, d, now) && now == mid
  {
    hide Parted;
    assert now == mid;
    forall j: nat | j < |a.streams|
      ensures if mid[j] == were[j] then SameJob(a.streams[j], d.streams[j]) else Parted(a.streams[j], d.streams[j])
    {
      PartedStays(a.streams[j], b.streams[j], d.streams[j]);
    }
  }

  lemma PlaceTold(w: World, slots: seq<Option<Running>>, place: seq<Place>, j: nat)
    requires Placed(w, slots, place) && j < |place|
    ensures place[j].Queued? <==> j in w.queue
    ensures place[j].Resident? <==> Held(slots, j)
  {
  }

  lemma ClosingIsWoundUp(c: Config, a: World, slots: seq<Option<Running>>, were: seq<Place>, b: World, now: seq<Place>)
    requires WorldOk(c, a, slots, were) && Closing(a, were, b, now)
    requires forall j | 0 <= j < |were| :: !InWorkerLocal(were[j])
    requires forall j | 0 <= j < |now| :: now[j].Gone?
    ensures WoundUp(a, slots, b)
  {
    hide Parted, Registered, StreamOk;
    forall j: nat | j < |a.streams|
      ensures if j in a.queue || Held(slots, j) then Parted(a.streams[j], b.streams[j])
        else SameJob(a.streams[j], b.streams[j])
    {
      PlaceTold(a, slots, were, j);
    }
  }

  lemma ClearKeeps(c: Config, w: World, slots: seq<Option<Running>>, place: seq<Place>)
    requires WorldOk(c, w, slots, place) && w.holder.None?
    requires forall j | 0 <= j < |place| :: place[j].Gone?
    ensures WorldOk(c, w.(registry := map[]), slots, place)
  {
  }
}
