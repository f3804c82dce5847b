/**
 The serving object: client calls on one side, the resident scheduler on the
 other, sharing the registry, the admission queue and the output streams.
 Between any two shared accesses of the worker, `Interfere` lets any number of
 client steps happen; `Ok` is what both sides keep.
 */
module Service {
  import opened Arith
  import opened Requests
  import opened ServiceState
  import opened ServiceSteps
  import opened Residents
  import opened Rotation
  import opened Batching
  import Prefixes
  import SequenceBatch

  datatype Reply = Accepted(job: nat) | Duplicate | Overloaded | Unavailable | Unsupported

  class Backend {
    const c: Config
    /** Whether the engine may fail at all. */
    const faulty: bool
    var w: World
    var slots: seq<Option<Running>>
    var engine: seq<seq<Token>>
    var cursor: nat
    ghost var place: seq<Place>
    /** The job the worker holds in a local variable, between its slot or the queue and its end. */
    ghost var hand: Option<nat>
    /** Client steps still to come in the run under consideration. */
    var horizon: nat
    /** One entry for every completed iteration of the serving loop. */
    ghost var log: seq<Round>

    ghost predicate Ok()
      reads this
    {
      && c.Valid() && |slots| == |engine| == c.residents && cursor < c.residents
      && |place| == |w.streams|
      && (forall i | 0 <= i < |slots| && slots[i].Some? :: slots[i].value.job < |w.streams|)
      && (forall j | 0 <= j < |place| && InWorkerLocal(place[j]) :: hand == Some(j))
      && WorldOk(c, w, slots, place)
    }

    /** Between its operations the worker holds nothing. */
    ghost predicate Free()
      reads this
    {
      Ok() && hand.None?
    }

    constructor (c: Config, horizon: nat, faulty: bool)
      requires c.Valid()
      ensures Free() && this.c == c && this.horizon == horizon && this.faulty == faulty && log == [] && cursor == 0
      ensures w == World([], [], map[], None, true, false)
      ensures forall i | 0 <= i < c.residents :: slots[i].None?
    {
      this.c, this.faulty := c, faulty;
      this.horizon := horizon;
      log := [];
      w := World([], [], map[], None, true, false);
      slots := seq(c.residents, i => None);
      engine := seq(c.residents, i => []);
      cursor := 0;
      place := [];
      hand := None;
    }

    // ---------------------------------------------------------------- clients

    /** The health test of generate, before it takes the lock: shutdown may be requested right after it. */
    method Health() returns (healthy: bool)
      ensures healthy == !w.stop
    {
      return !w.stop;
    }

    /**
     The part of generate from its validation to its queue push; on acceptance the caller holds the registry lock.
     `healthy` is what some earlier reading found.
     */
    method GenerateSubmit(req: Request, healthy: bool) returns (reply: Reply)
      requires Ok() && w.holder.None?
      modifies `w, `place
      ensures Ok() && Later(old(w), w) && Extends(old(place), place)
      ensures reply == (
        if !healthy then Unavailable
        else if !Admissible(req, c.context, c.vocab) then Unsupported
        else if req.id in old(w.registry) then Duplicate
        else if !old(w.open) then Unavailable
        else if |old(w.queue)| >= c.residents * 4 then Overloaded
        else Reply.Accepted(|old(w.streams)|))
      ensures w == if reply.Accepted? then Submitted(old(w), req) else old(w)
    {
      hide WorldOk, Deeds, Delivered, NoticeOk;
      if !healthy {
        return Unavailable;
      }
      var fits := ValidateCapacity(req, c.context, c.vocab);
      if !fits {
        return Unsupported;
      }
      if req.id in w.registry {
        return Duplicate;
      }
      if !w.open {
        return Unavailable;
      }
      if |w.queue| >= c.residents * 4 {
        return Overloaded;
      }
      var job := |w.streams|;
      SubmitKeeps(c, w, slots, place, req);
      w := w.(streams := w.streams + [Stream(req, 0, [], 0, false, false, None)], queue := w.queue + [job],
        holder := Some(job));
      place := place + [Queued];
      return Reply.Accepted(job);
    }

    /** The rest of generate: publish the job in the registry and leave the lock. */
    method GenerateInsert()
      requires Ok() && w.holder.Some?
      modifies `w
      ensures Ok() && Later(old(w), w) && w.holder.None?
      ensures old(w).holder.value < |w.streams| && w == Inserted(old(w)) && Still(old(w), w)
    {
      hide WorldOk, Deeds, Delivered, NoticeOk;
      InsertKeeps(c, w, slots, place);
      var job := w.holder.value;
      w := w.(registry := w.registry[w.streams[job].request.id := job], holder := None);
    }

    /** Abort by id, or drop of the output stream: the flag is monotone. */
    method Cancel(job: nat)
      requires Ok() && job < |w.streams|
      modifies `w
      ensures Ok() && Later(old(w), w)
      ensures w == old(w).(streams := old(w.streams)[job := old(w.streams)[job].(cancel := true)])
    {
      hide WorldOk, Deeds, Delivered, NoticeOk;
      JobFacts(c, w, slots, place, job);
      w := w.(streams := w.streams[job := w.streams[job].(cancel := true)]);
      FlagKeeps(c, old(w), w, slots, place, job);
    }

    method DropReceiver(job: nat)
      requires Ok() && job < |w.streams|
      modifies `w
      ensures Ok() && Later(old(w), w)
      ensures w == old(w).(streams := old(w.streams)[job := old(w.streams)[job].(closed := true)])
    {
      hide WorldOk, Deeds, Delivered, NoticeOk;
      JobFacts(c, w, slots, place, job);
      w := w.(streams := w.streams[job := w.streams[job].(closed := true)]);
      FlagKeeps(c, old(w), w, slots, place, job);
    }

    /** The client takes the oldest unread item, if there is one. */
    method Poll(job: nat) returns (item: Option<Item>)
      requires Ok() && job < |w.streams|
      modifies `w
      ensures Ok() && Later(old(w), w)
      ensures var st := old(w.streams)[job];
        if st.drained < |st.sent| then
          && item == Some(st.sent[st.drained])
          && w == old(w).(streams := old(w.streams)[job := st.(drained := st.drained + 1)])
        else item == None && w == old(w)
    {
      hide WorldOk, Deeds, Delivered, NoticeOk;
      JobFacts(c, w, slots, place, job);
      var st := w.streams[job];
      if st.drained == |st.sent| {
        return None;
      }
      w := w.(streams := w.streams[job := st.(drained := st.drained + 1)]);
      FlagKeeps(c, old(w), w, slots, place, job);
      return Some(st.sent[st.drained]);
    }

    method Abort(ids: seq<string>)
      requires Ok() && w.holder.None?
      modifies `w
      ensures Ok() && Later(old(w), w)
      ensures w == AbortAll(old(w), ids)
    {
      hide WorldOk, Deeds, Delivered, NoticeOk;
      for n := 0 to |ids|
        invariant Ok() && Later(old(w), w)
        invariant w == AbortAll(old(w), ids[..n])
      {
        ghost var before := w;
        if ids[n] in w.registry {
          RegistryInRange(c, w, slots, place, ids[n]);
          Cancel(w.registry[ids[n]]);
        }
        LaterTransitive(old(w), before, w);
        assert ids[..n + 1][..n] == ids[..n];
      }
      assert ids[..|ids|] == ids;
    }

    method Shutdown()
      requires Ok()
      modifies `w
      ensures Ok() && Later(old(w), w) && w == old(w).(stop := true)
    {
      hide WorldOk, Deeds, Delivered, NoticeOk;
      StopKeeps(c, w, slots, place);
      w := w.(stop := true);
    }

    /** One step of some client, chosen freely. */
    method ClientStep()
      requires Ok()
      modifies `w, `place
      ensures Ok() && Later(old(w), w) && Extends(old(place), place)
      ensures |w.queue| <= |old(w.queue)| + 1
    {
      hide WorldOk, Deeds, Delivered, NoticeOk;
      if
      case w.holder.None? =>
        // A call that passed its health test at any time before may take the lock now.
        var req: Request := *;
        var healthy: bool := *;
        var _ := GenerateSubmit(req, healthy);
      case w.holder.Some? =>
        GenerateInsert();
      case w.streams != [] =>
        var job: nat := *;
        if job < |w.streams| {
          Cancel(job);
        }
      case w.streams != [] =>
        var job: nat := *;
        if job < |w.streams| {
          DropReceiver(job);
        }
      case w.streams != [] =>
        var job: nat := *;
        if job < |w.streams| {
          var _ := Poll(job);
        }
      case w.holder.None? =>
        var ids: seq<string> := *;
        Abort(ids);
        AbortKeepsQueue(old(w), ids);
      case true =>
        Shutdown();
    }

    /** Any number of client steps between two steps of the worker. */
    method Interfere()
      requires Ok()
      modifies `w, `place, `horizon
      ensures Ok() && Later(old(w), w) && Extends(old(place), place)
      ensures Onward(old(w), old(horizon), w, horizon)
    {
      hide WorldOk, Deeds, Delivered, NoticeOk;
      var more: bool := *;
      while more && horizon > 0
        invariant Ok() && Later(old(w), w) && Extends(old(place), place)
        invariant horizon + |w.queue| <= old(horizon) + |old(w.queue)| && horizon <= old(horizon)
        invariant old(horizon) == 0 ==> w == old(w)
        decreases horizon
      {
        ghost var before := w;
        ClientStep();
        LaterTransitive(old(w), before, w);
        horizon := horizon - 1;
        more := *;
      }
      LaterGrows(old(w), w);
    }

    // ------------------------------------------- worker: single shared steps

    /** Wait for the registry lock: a generate call inside it has only its insert left to do. */
    method Lock()
      requires Ok()
      modifies `w, `place, `horizon
      ensures Ok() && Later(old(w), w) && Extends(old(place), place) && w.holder.None?
      ensures Onward(old(w), old(horizon), w, horizon)
    {
      hide WorldOk, Deeds, Delivered, NoticeOk;
      Interfere();
      if w.holder.Some? {
        ghost var before := w;
        GenerateInsert();
        LaterTransitive(old(w), before, w);
      }
    }

    method Unregister(job: nat)
      requires Ok() && w.holder.None? && job < |place| && (place[job].InHand? || place[job].Ending?)
      modifies `w, `place
      ensures Ok() && place == old(place)[job := Publishing]
      ensures w == Unregistered(old(w), job) && Calm(old(w), w) && Still(old(w), w)
    {
      hide WorldOk, Deeds, Delivered, NoticeOk;
      UnregisterKeeps(c, w, slots, place, job);
      w := w.(registry := w.registry - {w.streams[job].request.id});
      place := place[job := Publishing];
    }

    method TryRecv() returns (job: Option<nat>)
      requires Free()
      modifies `w, `place, `hand
      ensures Ok() && hand == job && Still(old(w), w)
      ensures if old(w.queue) == [] then job == None && w == old(w) && place == old(place)
        else job == Some(old(w.queue)[0]) && w == old(w).(queue := old(w.queue)[1..])
             && job.value < |place| && place == old(place)[job.value := InHand]
             && w.streams[job.value].sent == [] && Heads(job.value, w.queue)
    {
      hide WorldOk, Deeds, Delivered, NoticeOk;
      if w.queue == [] {
        return None;
      }
      QueueOrdered(c, w, slots, place);
      var head := w.queue[0];
      PopKeeps(c, w, slots, place);
      w := w.(queue := w.queue[1..]);
      place := place[head := InHand];
      hand := Some(head);
      return Some(head);
    }

    /** Non-blocking send of an output: refused when the receiver is gone or its queue is full. */
    method TrySend(job: nat, item: Item) returns (delivered: bool)
      requires Ok() && job < |w.streams| && !Ended(w.streams[job].sent) && w.streams[job].notice.None?
      requires item == Expected(c.model, w.streams[job].request, w.streams[job].cached, |w.streams[job].sent|)
      requires place[job].Publishing? || (place[job].Resident? && !item.Terminal())
      modifies `w
      ensures Ok() && Undisturbed(old(w), w, job) && Still(old(w), w)
      ensures delivered == (!old(w).streams[job].closed && old(w).streams[job].Room())
      ensures w == if delivered then Sent(old(w), job, item) else old(w)
    {
      hide WorldOk, Deeds, Delivered, NoticeOk;
      var st := w.streams[job];
      delivered := !st.closed && st.Room();
      if delivered {
        SendKeeps(c, w, slots, place, job, item);
        w := w.(streams := w.streams[job := st.(sent := st.sent + [item])]);
      }
    }

    /** Non-blocking send of the failure notice. It gets through exactly if the receiver is there and has room. */
    method TryNotice(job: nat)
      requires Ok() && job < |w.streams| && !w.open && !Ended(w.streams[job].sent) && w.streams[job].notice.None?
      requires place[job].Publishing? || place[job].Ending?
      modifies `w
      ensures Ok() && Undisturbed(old(w), w, job) && Still(old(w), w)
      ensures w == Noticed(old(w), job) && Parted(old(w).streams[job], w.streams[job])
    {
      hide WorldOk, Deeds, Delivered, NoticeOk, Parted, Still, Undisturbed;
      NoticeKeeps(c, w, slots, place, job);
      var st := w.streams[job];
      var sent := if !st.closed && st.Room() then st.sent + [Failure] else st.sent;
      w := w.(streams := w.streams[job := st.(sent := sent, notice := Some(st.drained))]);
    }

    /** The job leaves the worker for good. */
    ghost method Retire(job: nat)
      requires Ok() && job < |place| && place[job].Publishing?
      requires var st := w.streams[job]; Ended(st.sent) || st.Cancelled() || st.notice.Some?
      modifies `place, `hand
      ensures Ok() && hand.None? && place == old(place)[job := Gone]
    {
      hide WorldOk, Deeds, Delivered, NoticeOk;
      RetireKeeps(c, w, slots, place, job);
      place := place[job := Gone];
      hand := None;
    }

    ghost method MarkEnding(job: nat)
      requires Ok() && job < |place| && place[job].InHand?
      modifies `place
      ensures Ok() && place == old(place)[job := Ending] && !Ended(w.streams[job].sent) && w.streams[job].notice.None?
    {
      hide WorldOk, Deeds, Delivered, NoticeOk;
      EndingKeeps(c, w, slots, place, job);
      place := place[job := Ending];
    }

    /** The worker takes a resident's job out of its slot, keeping it as a local. */
    method Take(i: nat) returns (r: Running)
      requires Free() && i < |slots| && slots[i].Some?
      modifies `slots, `place, `hand
      ensures Ok() && hand == Some(r.job) && slots == old(slots)[i := None] && r == old(slots)[i].value
      ensures r.job < |place| && place == old(place)[r.job := InHand]
    {
      hide WorldOk, Deeds, Delivered, NoticeOk;
      TakeKeeps(c, w, slots, place, i);
      r := slots[i].value;
      slots := slots[i := None];
      place := place[r.job := InHand];
      hand := Some(r.job);
    }

    method SetRunning(i: nat, r: Running)
      requires Ok() && i < |slots| && slots[i].Some? && r.job == slots[i].value.job
      modifies `slots
      ensures Ok() && slots == old(slots)[i := Some(r)] && r.job < |place| && place[r.job] == Resident(i)
    {
      hide WorldOk, Deeds, Delivered, NoticeOk;
      SlotFacts(c, w, slots, place, i);
      RunKeeps(c, w, slots, place, i, r);
      slots := slots[i := Some(r)];
    }

    /** An operation of the engine that keeps nothing the scheduler sees. */
    method Attempt() returns (ok: bool)
      ensures !faulty ==> ok
    {
      ok := *;
      if !faulty {
        ok := true;
      }
    }

    // --------------------------------------------- worker: leaving a slot

    /** Empty the slot and remove the registry entry, in that order. */
    method Detach(i: nat) returns (r: Running)
      requires Free() && i < |slots| && slots[i].Some?
      modifies `w, `place, `horizon, `slots, `hand
      ensures Ok() && hand == Some(r.job) && r == old(slots)[i].value && slots == old(slots)[i := None]
      ensures Calm(old(w), w) && r.job < |place| && place[r.job].Publishing?
      ensures w.streams[r.job].request.id !in w.registry
      ensures Onward(old(w), old(horizon), w, horizon)
    {
      hide WorldOk, Deeds, Delivered, NoticeOk;
      r := Take(i);
      Lock();
      Unregister(r.job);
    }

    /** Send a detached job's last item and let go of it. */
    method Publish(job: nat, item: Item)
      requires Ok() && job < |place| && place[job].Publishing? && item.Terminal()
      requires var st := w.streams[job];
        && !Ended(st.sent) && st.notice.None? && st.Room()
        && item == Expected(c.model, st.request, st.cached, |st.sent|)
      modifies `w, `place, `horizon, `hand
      ensures Ok() && hand.None? && Undisturbed(old(w), w, job) && place[job].Gone?
      ensures w.streams[job].sent == old(w).streams[job].sent + [item]
        || (w.streams[job].closed && w.streams[job].sent == old(w).streams[job].sent)
      ensures Onward(old(w), old(horizon), w, horizon)
    {
      hide WorldOk, Deeds, Delivered, NoticeOk;
      Interfere();
      ghost var ready := w;
      assert SameJob(old(w).streams[job], w.streams[job]);
      var _ := TrySend(job, item);
      CalmThenUndisturbed(old(w), ready, w, job);
      Retire(job);
    }

    /** Drop a resident whose client has gone. */
    method ReleaseCancelled(i: nat) returns (ok: bool)
      requires Free() && i < |slots| && slots[i].Some? && w.streams[slots[i].value.job].Cancelled()
      modifies `w, `place, `horizon, `slots, `hand
      ensures Free()
      ensures !faulty ==> ok
      ensures if ok then slots == old(slots)[i := None] && Calm(old(w), w)
        else slots == old(slots) && w == old(w)
      ensures Onward(old(w), old(horizon), w, horizon)
    {
      hide WorldOk, Deeds, Delivered, NoticeOk;
      ok := Attempt(); // the engine gives back the request's pages, or fails
      if ok {
        var r := Detach(i);
        assert SameJob(old(w).streams[r.job], w.streams[r.job]);
        Retire(r.job);
      }
    }

    /** Success is published only after the engine has released the request: a failed release publishes nothing. */
    method Complete(i: nat) returns (ok: bool)
      requires Free() && i < |slots| && slots[i].Some?
      requires FinishedOk(c, w.streams[slots[i].value.job], slots[i].value)
      modifies `w, `place, `horizon, `slots, `hand
      ensures Free()
      ensures !faulty ==> ok
      ensures if ok then slots == old(slots)[i := None] && Undisturbed(old(w), w, old(slots)[i].value.job)
        else slots == old(slots) && w == old(w)
      ensures ok ==>
        var r := old(slots)[i].value; var was, now := old(w).streams[r.job], w.streams[r.job];
        && place[r.job].Gone?
        && (if r.terminal.None? then now.sent == was.sent
            else now.sent == was.sent + [r.terminal.value] || (now.closed && now.sent == was.sent))
      ensures Onward(old(w), old(horizon), w, horizon)
    {
      hide WorldOk, Deeds, Delivered, NoticeOk;
      ok := Attempt();
      if ok {
        SlotFacts(c, w, slots, place, i);
        var r := Detach(i);
        assert SameJob(old(w).streams[r.job], w.streams[r.job]);
        if r.terminal.Some? {
          ghost var detached := w;
          Publish(r.job, r.terminal.value);
          CalmThenUndisturbed(old(w), detached, w, r.job);
        } else {
          Retire(r.job);
        }
      }
    }

    /** The failure notice goes out while the job still has its registry entry. */
    method SendFailure(job: nat)
      requires Ok() && job < |place| && place[job].InHand? && !w.open
      modifies `w, `place, `horizon
      ensures Ok() && !w.open && |w.streams| == |old(w).streams| == |place| && place == old(place)[job := Ending]
      ensures Parted(old(w).streams[job], w.streams[job]) && Undisturbed(old(w), w, job)
      ensures w.queue == old(w).queue && Onward(old(w), old(horizon), w, horizon)
    {
      hide WorldOk, Deeds, Delivered, NoticeOk;
      Interfere();
      ghost var ready := w;
      assert SameJob(old(w).streams[job], ready.streams[job]);
      MarkEnding(job);
      TryNotice(job);
      PartedLater(old(w).streams[job], ready.streams[job], w.streams[job]);
      CalmThenUndisturbed(old(w), ready, w, job);
    }

    /** On the way out every resident gets the failure notice, if it can still take one. */
    method FailSlot(i: nat)
      requires Free() && i < |slots| && slots[i].Some? && !w.open
      modifies `w, `place, `horizon, `slots, `hand
      ensures Free() && slots == old(slots)[i := None] && !w.open && |w.streams| == |old(w).streams|
      ensures var job := old(slots)[i].value.job;
        && place == old(place)[job := Gone] && Parted(old(w).streams[job], w.streams[job])
        && Undisturbed(old(w), w, job)
      ensures w.queue == old(w).queue && Onward(old(w), old(horizon), w, horizon)
    {
      hide WorldOk, Deeds, Delivered, NoticeOk, Parted;
      var r := Take(i);
      SendFailure(r.job);
      ghost var sent := w;
      Lock();
      assert SameJob(sent.streams[r.job], w.streams[r.job]);
      Unregister(r.job);
      PartedStays(old(w).streams[r.job], sent.streams[r.job], w.streams[r.job]);
      NoticeGiven(old(w).streams[r.job], w.streams[r.job]);
      Retire(r.job);
      LaterIsCalm(sent, sent);
      UndisturbedThenCalm(old(w), sent, w, r.job);
    }

    // ------------------------------------------------- worker: one advance

    /** Feed tokens to the resident's engine state; `next` is the sample, if one was asked for. */
    method EngineRun(i: nat, tokens: seq<Token>, sample: bool) returns (ok: bool, next: Option<Token>)
      requires i < |engine|
      modifies `engine
      ensures |engine| == |old(engine)| && (forall k | 0 <= k < |engine| && k != i :: engine[k] == old(engine)[k])
      ensures !faulty ==> ok
      ensures ok ==> engine[i] == old(engine)[i] + tokens && next == if sample then Some(c.model(engine[i])) else None
    {
      ok := Attempt();
      next := None;
      if ok {
        engine := engine[i := engine[i] + tokens];
        next := if sample then Some(c.model(engine[i])) else None;
      } else {
        var lost: seq<Token> := *;
        engine := engine[i := lost];
      }
    }

    /** Account for a forward that has completed, and publish its sample. */
    method FinishAdvance(i: nat, count: nat, next: Option<Token>) returns (finished: bool)
      requires Ok() && i < |slots| && slots[i].Some? && count >= 1
      requires var r := slots[i].value; var st := w.streams[r.job];
        && RunningOk(c, st, r, engine[i], count) && st.Room()
        && next == if r.position + count >= |st.request.prompt| then Some(c.model(engine[i])) else None
      modifies `w, `place, `horizon, `slots
      ensures Ok() && slots == old(slots)[i := slots[i]] && slots[i].Some?
      ensures slots[i].value.job == old(slots)[i].value.job && Undisturbed(old(w), w, slots[i].value.job)
      ensures slots[i].value.position == old(slots)[i].value.position + count
      ensures slots[i].value.cached == old(slots)[i].value.cached
      ensures if finished then FinishedOk(c, w.streams[slots[i].value.job], slots[i].value)
        else SlotOk(c, w, slots, engine, i)
      ensures old(w).streams[slots[i].value.job].Cancelled() ==>
        finished && w == old(w) && slots[i].value == old(slots)[i].value.(position := slots[i].value.position)
      ensures Onward(old(w), old(horizon), w, horizon)
    {
      hide WorldOk, Deeds, Delivered, NoticeOk;
      var r := slots[i].value;
      var st := w.streams[r.job];
      if st.Cancelled() {
        SetRunning(i, r.(position := r.position + count));
        return true;
      }
      if r.position + count < |st.request.prompt| {
        SetRunning(i, r.(position := r.position + count));
        return false;
      }
      finished := Emit(i, count, next.value);
    }

    /** Record a sampled token and either keep its terminal output for later or send it now. */
    method Emit(i: nat, count: nat, token: Token) returns (finished: bool)
      requires Ok() && i < |slots| && slots[i].Some? && count >= 1
      requires var r := slots[i].value; var st := w.streams[r.job];
        && RunningOk(c, st, r, engine[i], count) && st.Room()
        && r.position + count >= |st.request.prompt| && token == c.model(engine[i])
      modifies `w, `place, `horizon, `slots
      ensures Ok() && slots == old(slots)[i := slots[i]] && slots[i].Some?
      ensures slots[i].value.job == old(slots)[i].value.job && Undisturbed(old(w), w, slots[i].value.job)
      ensures slots[i].value.position == old(slots)[i].value.position + count
      ensures slots[i].value.cached == old(slots)[i].value.cached
      ensures if finished then FinishedOk(c, w.streams[slots[i].value.job], slots[i].value)
        else SlotOk(c, w, slots, engine, i)
      ensures Onward(old(w), old(horizon), w, horizon)
    {
      hide WorldOk, Deeds, Delivered, NoticeOk;
      var r := slots[i].value;
      var st := w.streams[r.job];
      SampleIsExpected(c, st, r, engine[i], count);
      SteppedOk(c, st, r, engine[i], count);
      var stepped := Stepped(r, count, Some(token), true);
      var output := Sampled(st.request, token, stepped.generated, r.cached);
      if output.finish.Some? {
        SetRunning(i, stepped.(terminal := Some(output)));
        return true;
      }
      SetRunning(i, stepped);
      var delivered := SendOutput(r.job, output);
      return !delivered;
    }

    /** A non-terminal output of a resident; with room checked beforehand only a closed receiver refuses it. */
    method SendOutput(job: nat, item: Item) returns (delivered: bool)
      requires Ok() && job < |place| && place[job].Resident? && !item.Terminal()
      requires var st := w.streams[job];
        st.Room() && item == Expected(c.model, st.request, st.cached, |st.sent|)
      modifies `w, `place, `horizon
      ensures Ok() && Undisturbed(old(w), w, job)
      ensures var was, now := old(w).streams[job], w.streams[job];
        && now.request == was.request && now.cached == was.cached
        && (if delivered then now.sent == was.sent + [item] else now.closed && now.sent == was.sent)
      ensures Onward(old(w), old(horizon), w, horizon)
    {
      hide WorldOk, Deeds, Delivered, NoticeOk;
      Interfere();
      ghost var ready := w;
      assert SameJob(old(w).streams[job], ready.streams[job]);
      JobFacts(c, w, slots, place, job);
      delivered := TrySend(job, item);
      CalmThenUndisturbed(old(w), ready, w, job);
    }

    // ------------------------------------------------ worker: serial mode

    method Pause()
      requires Ok() && SlotsOk(c, w, slots, engine)
      modifies `w, `place, `horizon
      ensures Ok() && SlotsOk(c, w, slots, engine) && Later(old(w), w) && Extends(old(place), place)
      ensures w.open == old(w.open)
      ensures Onward(old(w), old(horizon), w, horizon)
    {
      hide WorldOk, Deeds, Delivered, NoticeOk;
      Interfere();
      SlotsSurviveClients(c, old(w), w, slots, engine);
    }

    /** Width of the next forward of a resident when `left` of the budget remains. */
    function Width(position: nat, prompt: nat, left: nat): nat
      requires c.Valid()
    {
      if position < prompt then Prefixes.SerialWidth(c.shape, position, prompt, left) else 1
    }

    /** What the resident is fed next: a piece of its prompt, as wide as is due, or its last sample. */
    method NextInput(i: nat, left: nat) returns (tokens: seq<Token>)
      requires Ok() && SlotsOk(c, w, slots, engine) && i < |slots| && slots[i].Some? && left >= 1
      ensures var r := slots[i].value; var st := w.streams[r.job];
        && |tokens| == Width(r.position, |st.request.prompt|, left) && 1 <= |tokens| <= left
        && RunningOk(c, st, r, engine[i] + tokens, |tokens|)
    {
      hide WorldOk;
      var r := slots[i].value;
      assert SlotOk(c, w, slots, engine, i);
      var prompt := w.streams[r.job].request.prompt;
      if r.position < |prompt| {
        // The limit is positive and inside the prompt, so the worker's boundary error cannot occur.
        Prefixes.LimitFits(c.shape, r.position, |prompt|);
        var limit := Prefixes.PrefillLimit(c.shape, r.position, |prompt|);
        Prefixes.ChunkFits(c.shape, Min(left, limit));
        var count := Prefixes.PrefillChunk(c.shape, Min(left, limit));
        tokens := prompt[r.position..r.position + count];
      } else {
        tokens := [r.next.value];
      }
      FeedOk(c, w.streams[r.job], r, engine[i], tokens);
    }

    /** One forward of one resident, on at most `left` tokens. */
    method Advance(i: nat, left: nat) returns (ok: bool, finished: bool, used: nat)
      requires Ok() && SlotsOk(c, w, slots, engine) && i < |slots| && slots[i].Some? && left >= 1
      requires w.streams[slots[i].value.job].Room()
      modifies `w, `place, `horizon, `slots, `engine
      ensures Ok() && slots == old(slots)[i := slots[i]] && slots[i].Some?
      ensures slots[i].value.job == old(slots)[i].value.job
      ensures w.open == old(w.open) && (!faulty ==> ok)
      ensures ok ==> Undisturbed(old(w), w, old(slots)[i].value.job)
      ensures ok ==>
        && PeersOk(c, w, slots, engine, i)
        && used == Width(old(slots)[i].value.position, |old(w).streams[slots[i].value.job].request.prompt|, left)
        && 1 <= used <= left
        && slots[i].value.position == old(slots)[i].value.position + used
        && slots[i].value.cached == old(slots)[i].value.cached
        && (if finished then
              FinishedOk(c, w.streams[slots[i].value.job], slots[i].value) else SlotOk(c, w, slots, engine, i))
      ensures Onward(old(w), old(horizon), w, horizon)
    {
      hide WorldOk, Deeds, Delivered, NoticeOk, Grows, RunningOk, Width, SlotOk;
      OnwardSame(w, w, horizon);
      var r := slots[i].value;
      ghost var st := w.streams[r.job];
      var tokens := NextInput(i, left);
      var next, count := None, |tokens|;
      ok, next := EngineRun(i, tokens, r.position + count >= |w.streams[r.job].request.prompt|);
      finished, used := false, count;
      if ok {
        Interfere();
        assert SameJob(st, w.streams[r.job]);
        RunningStays(c, st, w.streams[r.job], r, engine[i], count);
        ghost var forwarded, h := w, horizon;
        finished := FinishAdvance(i, count, next);
        OnwardChain(old(w), old(horizon), forwarded, h, w, horizon);
        CalmThenUndisturbed(old(w), forwarded, w, r.job);
        WorldPlaced(c, old(w), old(slots), old(place));
        PeersKept(c, old(w), w, old(slots), slots, old(place), old(engine), engine, i);
      }
    }

    method DropCancelled(i: nat) returns (ok: bool)
      requires Free() && SlotsOk(c, w, slots, engine)
      requires i < |slots| && slots[i].Some? && w.streams[slots[i].value.job].Cancelled()
      modifies `w, `place, `horizon, `slots, `hand
      ensures w.open == old(w.open) && (!faulty ==> ok)
      ensures Free() && (ok ==> slots == old(slots)[i := None] && SlotsOk(c, w, slots, engine) && Calm(old(w), w))
      ensures !ok ==> slots == old(slots)
      ensures Onward(old(w), old(horizon), w, horizon)
    {
      hide WorldOk, Deeds, Delivered, NoticeOk;
      ok := ReleaseCancelled(i);
      if ok {
        WorldPlaced(c, old(w), old(slots), old(place));
        PeersKept(c, old(w), w, old(slots), slots, old(place), engine, engine, i);
      }
    }

    /** The first of them: a resident whose client has gone is released. */
    method Reap(i: nat) returns (v: Option<Visited>)
      requires Free() && SlotsOk(c, w, slots, engine) && i < |slots| && slots[i].Some?
      modifies `w, `place, `horizon, `slots, `hand
      ensures Free() && w.open == old(w.open) && (!faulty ==> v != Some(Failed))
      ensures v == None || v == Some(Failed) || v == Some(Skipped)
      ensures slots == if v == Some(Skipped) then old(slots)[i := None] else old(slots)
      ensures v != Some(Failed) ==> SlotsOk(c, w, slots, engine) && Calm(old(w), w)
      ensures old(slots)[i].value.job < |old(w).streams| <= |w.streams|
      ensures v == Some(Skipped) ==> SkippedNow(w, old(slots)[i].value.job)
      ensures v == None ==> Live(old(w), slots, i) && Later(old(w), w)
      ensures Onward(old(w), old(horizon), w, horizon)
    {
      hide WorldOk, Deeds, Delivered, NoticeOk, Grows, Onward, Extends, Calm, Later;
      var r := slots[i].value;
      assert SlotOk(c, w, slots, engine, i);
      Pause();
      LaterJob(old(w), w, r.job);
      if w.streams[r.job].Cancelled() {
        ghost var held, h := w, horizon;
        var released := DropCancelled(i);
        OnwardChain(old(w), old(horizon), held, h, w, horizon);
        OnwardStreams(held, h, w, horizon);
        if !released {
          return Some(Failed);
        }
        CalmJob(held, w, r.job);
        CalmChain(old(w), held, w);
        return Some(Skipped);
      }
      return None;
    }

    /** The tests before a forward: nothing is returned for a resident that is to be advanced. */
    method Inspect(i: nat, left: nat) returns (v: Option<Visited>)
      requires Free() && SlotsOk(c, w, slots, engine) && i < |slots| && 1 <= left <= c.shape.budget
      requires c.shape.batchCapacity == 0
      modifies `w, `place, `horizon, `slots, `hand
      ensures Free() && w.open == old(w.open) && (!faulty ==> v != Some(Failed))
      ensures |slots| == |old(slots)| && (forall k | 0 <= k < |slots| && k != i :: slots[k] == old(slots)[k])
      ensures v != Some(Failed) ==> SlotsOk(c, w, slots, engine) && Calm(old(w), w)
      ensures v == Some(Vacant) <==> old(slots)[i].None?
      ensures v == Some(Vacant) ==> slots == old(slots) && w == old(w)
      ensures v == Some(Waits) ==> left < c.shape.budget && slots == old(slots) && TooWide(c, w, slots, i, left)
      ensures v == Some(Skipped) ==>
        && old(slots)[i].value.job < |w.streams| && (slots[i] == old(slots)[i] || slots[i].None?)
        && SkippedNow(w, old(slots)[i].value.job)
      ensures v == Some(Skipped) && Deserted(old(w), old(slots)[i].value.job) ==> slots[i].None?
      ensures v.None? ==> Live(old(w), slots, i)
      ensures v.Some? ==> !v.value.Advanced?
      ensures v.None? ==> slots == old(slots)
      ensures v.None? ==>
        var r := slots[i].value; var st := w.streams[r.job];
        && r.job < |old(w).streams| && st.request == old(w).streams[r.job].request && st.Room()
        && (r.position < |st.request.prompt| ==> !Prefixes.Deferred(c.shape, r.position, |st.request.prompt|, left))
      ensures Onward(old(w), old(horizon), w, horizon)
    {
      hide WorldOk, Deeds, Delivered, NoticeOk, Grows, Onward, Extends, Prefixes.Deferred, TooWide, Calm, Later;
      OnwardSame(w, w, horizon);
      if slots[i].None? {
        LaterReflexive(w);
        LaterIsCalm(w, w);
        return Some(Vacant);
      }
      var r := slots[i].value;
      v := Reap(i);
      if v.Some? {
        return;
      }
      ghost var before, g := w, horizon;
      Pause();
      LaterJob(before, w, r.job);
      LaterTransitive(old(w), before, w);
      LaterJob(old(w), w, r.job);
      OnwardChain(old(w), old(horizon), before, g, w, horizon);
      if !w.streams[r.job].Room() {
        return Some(Skipped);
      }
      var prompt := |w.streams[r.job].request.prompt|;
      assert SlotOk(c, w, slots, engine, i);
      if r.position < prompt && Prefixes.Deferred(c.shape, r.position, prompt, left) {
        DeferredIsShort(c.shape, r.position, prompt, left);
        DeferredIsTooWide(c, w, slots, i, left);
        return Some(Waits);
      }
      return None;
    }

    /** The rotation's visit of slot `i`: release, skip, defer or advance it. */
    method Visit(i: nat, left: nat) returns (v: Visited)
      requires Free() && SlotsOk(c, w, slots, engine) && i < |slots| && 1 <= left <= c.shape.budget
      requires c.shape.batchCapacity == 0
      modifies `w, `place, `horizon, `slots, `engine, `hand
      ensures w.open == old(w.open)
      ensures Free() && |slots| == |old(slots)| && (forall k | 0 <= k < |slots| && k != i :: slots[k] == old(slots)[k])
      ensures (!faulty ==> !v.Failed?) && (!v.Failed? ==> SlotsOk(c, w, slots, engine))
      ensures v.Vacant? <==> old(slots)[i].None?
      ensures v.Waits? ==>
        left < c.shape.budget && slots == old(slots) && Calm(old(w), w) && TooWide(c, w, slots, i, left)
      ensures v.Vacant? ==> slots == old(slots) && w == old(w)
      ensures v.Skipped? || v.Advanced? ==> Undisturbed(old(w), w, old(slots)[i].value.job)
      ensures v.Skipped? ==> Calm(old(w), w)
      ensures v.Skipped? ==>
        && old(slots)[i].value.job < |w.streams| && (slots[i] == old(slots)[i] || slots[i].None?)
        && SkippedNow(w, old(slots)[i].value.job)
      ensures v.Skipped? && Deserted(old(w), old(slots)[i].value.job) ==> slots[i].None?
      ensures v.Advanced? ==> MovedBy(old(slots)[i], slots[i], v.used) && Live(old(w), old(slots), i)
      ensures v.Advanced? ==> 1 <= v.used <= left && ForwardAt(c, old(w), old(slots), i, v.used)
      ensures Onward(old(w), old(horizon), w, horizon)
    {
      hide WorldOk, Deeds, Delivered, NoticeOk, Grows, Onward, Extends, Prefixes.Deferred, RunningOk, SlotsOk, TooWide;
      var seen := Inspect(i, left);
      if seen.Some? {
        return seen.value;
      }
      ghost var ready, f := w, horizon;
      ghost var r, prompt := slots[i].value, |w.streams[slots[i].value.job].request.prompt|;
      v := AdvanceAndComplete(i, left);
      OnwardChain(old(w), old(horizon), ready, f, w, horizon);
      if v.Advanced? {
        CalmThenUndisturbed(old(w), ready, w, r.job);
        assert r.position < prompt ==> Prefixes.Executes(c.shape, prompt, r.position, left, v.used);
      }
    }

    method AdvanceAndComplete(i: nat, left: nat) returns (v: Visited)
      requires Free() && SlotsOk(c, w, slots, engine) && i < |slots| && slots[i].Some? && left >= 1
      requires w.streams[slots[i].value.job].Room()
      modifies `w, `place, `horizon, `slots, `engine, `hand
      ensures w.open == old(w.open)
      ensures Free() && |slots| == |old(slots)| && (forall k | 0 <= k < |slots| && k != i :: slots[k] == old(slots)[k])
      ensures v.Failed? || v.Advanced?
      ensures !faulty ==> v.Advanced?
      ensures v.Advanced? ==> Undisturbed(old(w), w, old(slots)[i].value.job)
      ensures v.Advanced? ==>
        && SlotsOk(c, w, slots, engine)
        && v.used == Width(old(slots)[i].value.position, |old(w).streams[old(slots)[i].value.job].request.prompt|, left)
        && 1 <= v.used <= left && MovedBy(old(slots)[i], slots[i], v.used)
      ensures Onward(old(w), old(horizon), w, horizon)
    {
      hide WorldOk, Deeds, Delivered, NoticeOk;
      var ok, finished, used := Advance(i, left);
      if !ok {
        return Failed;
      }
      ghost var before, full, places := w, slots, place;
      ok := Settle(i, finished);
      if !ok {
        return Failed;
      }
      WorldPlaced(c, before, full, places);
      PeersKept(c, before, w, full, slots, places, engine, engine, i);
      UndisturbedChain(old(w), before, w, full[i].value.job);
      assert SlotOk(c, w, slots, engine, i);
      return Advanced(used);
    }

    /** After an accounted forward: complete a finished resident, or offer its prefix as a checkpoint. */
    method Settle(i: nat, finished: bool) returns (ok: bool)
      requires Free() && i < |slots| && slots[i].Some?
      requires finished ==> FinishedOk(c, w.streams[slots[i].value.job], slots[i].value)
      modifies `w, `place, `horizon, `slots, `hand
      ensures Free() && w.open == old(w.open) && (!faulty ==> ok)
      ensures ok ==> Undisturbed(old(w), w, old(slots)[i].value.job)
      ensures ok ==> slots == if finished then old(slots)[i := None] else old(slots)
      ensures !finished || !ok ==> slots == old(slots) && w == old(w)
      ensures Onward(old(w), old(horizon), w, horizon)
    {
      hide WorldOk, Deeds, Delivered, NoticeOk;
      if finished {
        ok := Complete(i);
      } else {
        ok := Attempt(); // publishing a prefix checkpoint, which touches no scheduler state
      }
    }

    /** The visit at `offset` of a turn, with what it does to the cursor and to the tick's account. */
    method VisitAt(was: Tick, offset: nat, left: nat, ghost origin: seq<Option<Running>>, ghost began: World)
      returns (v: Visited, tick: Tick)
      requires Free() && SlotsOk(c, w, slots, engine) && offset < c.residents && 1 <= left <= c.shape.budget
      requires c.shape.batchCapacity == 0 && Accounting(c, was, offset, began, origin, w, slots)
      modifies `w, `place, `horizon, `slots, `engine, `cursor, `hand
      ensures Free() && Onward(old(w), old(horizon), w, horizon) && w.open == old(w.open) && (!faulty ==> !v.Failed?)
      ensures !v.Failed? ==>
        && SlotsOk(c, w, slots, engine)
        && Accounting(c, tick, if v.Waits? then offset else offset + 1, began, origin, w, slots)
      ensures tick.start == was.start && tick.occupied == was.occupied
      ensures was.start < c.residents && tick == Noted(was, Rotate(c.residents, was.start, offset), v)
      ensures v.Waits? ==> left < c.shape.budget && cursor == Turned(c.residents, was.start, offset)
      ensures v.Waits? ==> TooWide(c, w, slots, Rotate(c.residents, was.start, offset), left)
      ensures v.Advanced? ==> 1 <= v.used <= left && cursor == Turned(c.residents, was.start, offset + 1)
      ensures v.Vacant? || v.Skipped? ==> cursor == old(cursor)
    {
      hide WorldOk, Deeds, Delivered, NoticeOk, SlotsOk, Accounting, ForwardAt, RunningOk, SkippedNow, TooWide;
      hide Grows, Calm, Undisturbed, Onward;
      AccountingFacts(c, was, offset, began, origin, w, slots);
      var index := Rotate(c.residents, was.start, offset);
      v := Visit(index, left);
      tick := Noted(was, index, v);
      GrowsOnward(began, old(w), old(horizon), w, horizon);
      if v.Waits? {
        cursor := index;
        AccountingCalm(c, was, offset, began, origin, old(w), w, slots);
      } else if !v.Failed? {
        if v.Advanced? {
          NextSlot(c.residents, was.start, offset);
          cursor := (index + 1) % c.residents;
        }
        AccountingNext(c, was, offset, began, origin, old(w), old(slots), w, slots, v);
      }
    }

    /** One turn of the serial rotation, from the cursor and within the token budget. */
    method SerialTick() returns (ok: bool, tick: Tick)
      requires Free() && SlotsOk(c, w, slots, engine) && c.shape.batchCapacity == 0
      modifies `w, `place, `horizon, `slots, `engine, `cursor, `hand
      ensures Free() && Onward(old(w), old(horizon), w, horizon)
      ensures w.open == old(w.open) && (!faulty ==> ok)
      ensures ok ==>
        && SlotsOk(c, w, slots, engine)
        && tick.start == old(cursor) && tick.next == cursor && tick.occupied == Occupied(old(slots))
        && TickMoves(old(slots), slots, tick) && AnswersOk(old(w), w, old(slots), tick)
        && ForwardsOk(c, old(w), old(slots), tick)
      ensures ok && !w.stop ==> Fair(c.residents, tick) && Full(c, old(w), old(slots), tick)
      ensures ok && old(w).stop ==> tick.advanced == map[] && slots == old(slots)
    {
      hide TooWide, Full, Spent;
      hide WorldOk, Deeds, Delivered, NoticeOk, SlotsOk, Accounting, Fair, Later, Extends, Calm, AnswersOk, TickMoves;
      hide DistinctJobs, JobsIn, Grows, ForwardsOk, Onward, Turned, Occupied;
      var tokens, offset := 0, 0;
      OnwardSame(w, w, horizon);
      tick := Tick(cursor, cursor, Occupied(slots), map[], {});
      ghost var moved, stuck := 0, false;
      DistinctSlots(c, w, slots, place);
      AccountingStart(c, tick, w, slots);
      SpentNothing(c.residents, tick, 0);
      while offset < c.residents
        invariant Free() && SlotsOk(c, w, slots, engine) && w.open == old(w.open)
        invariant Onward(old(w), old(horizon), w, horizon)
        invariant 0 <= moved <= offset <= c.residents && 0 <= tokens <= c.shape.budget
        invariant tick.start == old(cursor) && tick.occupied == Occupied(old(slots))
        invariant cursor == Turned(c.residents, tick.start, moved) && (tokens > 0 <==> moved > 0)
        invariant Accounting(c, tick, offset, old(w), old(slots), w, slots)
        invariant tick.start < c.residents && tokens == Spent(c.residents, tick, offset)
        invariant old(w).stop ==> offset == 0 && tick.advanced == map[] && slots == old(slots) && w.stop
      {
        ghost var before, h := w, horizon;
        Pause();
        OnwardChain(old(w), old(horizon), before, h, w, horizon);
        LaterIsCalm(before, w);
        GrowsStopped(old(w), old(horizon), w, horizon);
        AccountingCalm(c, tick, offset, old(w), old(slots), before, w, slots);
        if tokens == c.shape.budget || w.stop {
          stuck := tokens == c.shape.budget;
          break;
        }
        var v;
        ghost var found, g, was := w, horizon, tick;
        NotYetAdvanced(c, tick, offset, old(w), old(slots), w, slots);
        v, tick := VisitAt(tick, offset, c.shape.budget - tokens, old(slots), old(w));
        OnwardChain(old(w), old(horizon), found, g, w, horizon);
        if v.Failed? {
          return false, tick;
        }
        if v.Waits? {
          SkipsWait(was, Rotate(c.residents, was.start, offset), v);
          StuckAt(c, tick, offset, old(w), old(slots), w, slots, c.shape.budget - tokens);
          stuck := true;
          moved := offset;
          break;
        }
        SpentNext(c.residents, was, offset, v);
        offset := offset + 1;
        if v.Advanced? {
          tokens := tokens + v.used;
          moved := offset;
        }
      }
      ok := true;
      if offset == c.residents || stuck {
        AccountingFull(c, tick, offset, old(w), old(slots), w, slots, cursor);
      }
      AccountingEnds(c, tick, offset, old(w), old(slots), w, slots, cursor, moved);
      tick := tick.(next := cursor);
    }

    // -------------------------------------------------- worker: admission

    /** Put a job into a free slot and prepare its engine state. */
    method Install(i: nat, job: nat) returns (ok: bool)
      requires Ok() && SlotsOk(c, w, slots, engine) && i < |slots| && slots[i].None?
      requires job < |place| && place[job].InHand? && w.streams[job].sent == []
      modifies `w, `place, `slots, `engine, `hand
      ensures Ok() && hand.None? && (ok ==> SlotsOk(c, w, slots, engine)) && (!faulty ==> ok)
      ensures w.queue == old(w.queue) && Still(old(w), w) && Admitting(old(w), w)
      ensures slots == old(slots)[i := slots[i]] && slots[i].Some? && slots[i].value.job == job
      ensures ok ==> slots[i].value == Running(job, slots[i].value.cached, 0, None, slots[i].value.cached, None)
    {
      hide WorldOk, Deeds, Delivered, NoticeOk;
      var prompt := w.streams[job].request.prompt;
      JobFacts(c, w, slots, place, job);
      SeatKeeps(c, w, slots, place, i, Running(job, 0, 0, None, 0, None));
      slots := slots[i := Some(Running(job, 0, 0, None, 0, None))];
      place := place[job := Resident(i)];
      hand := None;
      assert PeersOk(c, w, slots, engine, i) by {
        forall k | 0 <= k < |slots| && k != i ensures SlotOk(c, w, slots, engine, k) {
          assert SlotOk(c, w, old(slots), engine, k);
        }
      }
      ok := Attempt(); // reserve pages for prompt plus max_tokens and reset the resident
      if ok {
        var cached: nat := *; // restore a cached prefix: some length, or a failure
        ok := Attempt();
        if cached >= |prompt| {
          if !faulty {
            cached := 0;
          }
          ok := !faulty;
        }
        if ok {
          Restore(i, job, cached);
        }
      }
    }

    /** The resident continues behind a prefix the engine already holds. */
    method Restore(i: nat, job: nat, cached: nat)
      requires Ok() && i < |slots| && slots[i] == Some(Running(job, 0, 0, None, 0, None))
      requires PeersOk(c, w, slots, engine, i)
      requires w.streams[job].sent == [] && cached < |w.streams[job].request.prompt|
      modifies `w, `slots, `engine
      ensures Ok() && SlotsOk(c, w, slots, engine)
      ensures slots == old(slots)[i := Some(Running(job, cached, 0, None, cached, None))]
      ensures w == old(w).(streams := old(w.streams)[job := old(w.streams)[job].(cached := cached)])
      ensures Still(old(w), w) && Admitting(old(w), w)
    {
      hide WorldOk, Deeds, Grows, Admitting, Still;
      CachedKeeps(w, job, cached);
      var prompt := w.streams[job].request.prompt;
      engine := engine[i := prompt[..cached]];
      SetRunning(i, Running(job, cached, 0, None, cached, None));
      JobFacts(c, w, slots, place, job);
      w := w.(streams := w.streams[job := w.streams[job].(cached := cached)]);
      TouchKeeps(c, old(w), w, slots, place, job);
      WorldPlaced(c, old(w), old(slots), old(place));
      PeersKept(c, old(w), w, old(slots), slots, place, old(engine), engine, i);
      assert prompt + Greedy(c.model, prompt, 0) == prompt;
      assert SlotOk(c, w, slots, engine, i);
    }

    /**
     Drop what was cancelled, then fill the slot from the queue, in order of acceptance, passing over cancelled jobs.
     */
    method AdmitSlot(i: nat) returns (ok: bool)
      requires Free() && SlotsOk(c, w, slots, engine) && i < |slots|
      modifies `w, `place, `horizon, `slots, `engine, `hand
      ensures Free() && w.open == old(w.open) && (ok ==> SlotsOk(c, w, slots, engine)) && (!faulty ==> ok)
      ensures forall k | 0 <= k < |slots| && k != i :: slots[k] == old(slots)[k]
      ensures ok ==> slots[i].Some? || w.queue == []
      ensures ok ==> Admitting(old(w), w) && Readmitted(old(w), w, old(slots)[i], slots[i])
      ensures Onward(old(w), old(horizon), w, horizon)
    {
      hide WorldOk, Deeds, Delivered, NoticeOk, SlotsOk, Admitting;
      ok := EvictCancelled(i);
      if ok {
        ghost var evicted, left := w, slots[i];
        ok := FillSlot(i);
        if ok {
          AdmittingChain(old(w), evicted, w);
        }
      }
    }

    /** Only a resident whose client has gone loses its slot. */
    method EvictCancelled(i: nat) returns (ok: bool)
      requires Free() && SlotsOk(c, w, slots, engine) && i < |slots|
      modifies `w, `place, `horizon, `slots, `hand
      ensures Free() && w.open == old(w.open) && (ok ==> SlotsOk(c, w, slots, engine)) && (!faulty ==> ok)
      ensures slots == old(slots) || (
        && slots == old(slots)[i := None] && old(slots)[i].value.job < |w.streams|
        && w.streams[old(slots)[i].value.job].Cancelled())
      ensures ok && slots[i].Some? ==> !w.streams[slots[i].value.job].Cancelled()
      ensures ok ==> Admitting(old(w), w)
      ensures Onward(old(w), old(horizon), w, horizon)
    {
      hide WorldOk, Deeds, Delivered, NoticeOk, SlotsOk, Admitting;
      Pause();
      LaterGrows(old(w), w);
      ok := true;
      if slots[i].Some? && w.streams[slots[i].value.job].Cancelled() {
        ghost var held, job := w, slots[i].value.job;
        ok := DropCancelled(i);
        if ok {
          assert SameJob(held.streams[job], w.streams[job]);
          CalmAdmits(held, w);
          AdmittingChain(old(w), held, w);
        }
      }
    }

    /** A free slot stays free only when nothing is queued. */
    method FillSlot(i: nat) returns (ok: bool)
      requires Free() && SlotsOk(c, w, slots, engine) && i < |slots|
      modifies `w, `place, `horizon, `slots, `engine, `hand
      ensures Free() && w.open == old(w.open) && (ok ==> SlotsOk(c, w, slots, engine)) && (!faulty ==> ok)
      ensures if old(slots)[i].Some? then ok && slots == old(slots) else slots == old(slots)[i := slots[i]]
      ensures ok ==> slots[i].Some? || w.queue == []
      ensures ok && old(slots)[i].None? && slots[i].Some? ==> Seated(old(w), w, slots[i].value)
      ensures ok ==> Admitting(old(w), w)
      ensures Onward(old(w), old(horizon), w, horizon)
    {
      hide WorldOk, Deeds, Delivered, NoticeOk, SlotsOk, Admitting, Later, Extends;
      ok := true;
      LaterReflexive(w);
      LaterGrows(w, w);
      while slots[i].None?
        invariant Free() && SlotsOk(c, w, slots, engine) && i < |slots| && ok && w.open == old(w.open)
        invariant if old(slots)[i].Some? then slots == old(slots) else slots == old(slots)[i := slots[i]]
        invariant old(slots)[i].None? && slots[i].Some? ==> Seated(old(w), w, slots[i].value)
        invariant Admitting(old(w), w) && Onward(old(w), old(horizon), w, horizon)
        decreases slots[i].None?, horizon + |w.queue|
      {
        ghost var top := w;
        Pause();
        LaterGrows(top, w);
        AdmittingChain(old(w), top, w);
        if w.queue == [] {
          break;
        }
        ghost var waiting := w;
        ok := SeatNext(i);
        AdmittingChain(old(w), waiting, w);
        if !ok {
          return;
        }
      }
    }

    /** The head of the queue takes the slot, unless its client has gone. */
    method SeatNext(i: nat) returns (ok: bool)
      requires Free() && SlotsOk(c, w, slots, engine) && i < |slots| && slots[i].None? && w.queue != []
      modifies `w, `place, `horizon, `slots, `engine, `hand
      ensures Free() && w.open == old(w.open) && (ok ==> SlotsOk(c, w, slots, engine)) && (!faulty ==> ok)
      ensures slots == old(slots)[i := slots[i]]
      ensures ok && slots[i].Some? ==> Seated(old(w), w, slots[i].value)
      ensures Admitting(old(w), w) && Onward(old(w), old(horizon), w, horizon)
      ensures horizon + |w.queue| < old(horizon) + |old(w.queue)|
    {
      hide WorldOk, Deeds, Delivered, NoticeOk, SlotsOk, Admitting, Later, Extends;
      var job := Receive();
      ghost var taken := w;
      if w.streams[job].Cancelled() {
        Discard(job);
        ok := true;
      } else {
        ok := Install(i, job);
      }
      AdmittingChain(old(w), taken, w);
    }

    /** Take the head of the queue; clients may act before its cancel flag is read. */
    method Receive() returns (job: nat)
      requires Free() && SlotsOk(c, w, slots, engine) && w.queue != []
      modifies `w, `place, `horizon, `hand
      ensures Ok() && hand == Some(job) && SlotsOk(c, w, slots, engine) && w.open == old(w.open) && slots == old(slots)
      ensures job < |place| && place[job].InHand? && w.streams[job].sent == []
      ensures job == Front(old(w)) < Front(w) && Admitting(old(w), w)
      ensures Onward(old(w), old(horizon), w, horizon) && horizon + |w.queue| < old(horizon) + |old(w.queue)|
    {
      hide WorldOk, Deeds, Delivered, NoticeOk;
      var head := TryRecv();
      ghost var popped := w;
      assert SlotsOk(c, w, slots, engine) by {
        forall k | 0 <= k < |slots| ensures SlotOk(c, w, slots, engine, k) {
          assert SlotOk(c, old(w), slots, engine, k);
        }
      }
      Pause();
      LaterGrows(popped, w);
      assert SameJob(popped.streams[head.value], w.streams[head.value]);
      HeadsStays(popped, w, head.value);
      return head.value;
    }

    /** A job cancelled while queued only loses its registry entry. */
    method Discard(job: nat)
      requires Ok() && SlotsOk(c, w, slots, engine)
      requires job < |place| && place[job].InHand? && w.streams[job].Cancelled()
      modifies `w, `place, `horizon, `hand
      ensures Free() && SlotsOk(c, w, slots, engine) && w.open == old(w.open) && Admitting(old(w), w)
      ensures Onward(old(w), old(horizon), w, horizon)
    {
      hide WorldOk, Deeds, Delivered, NoticeOk;
      Lock();
      ghost var locked := w;
      SlotsSurviveClients(c, old(w), locked, slots, engine);
      Unregister(job);
      LaterIsCalm(old(w), locked);
      CalmChain(old(w), locked, w);
      CalmAdmits(old(w), w);
      Retire(job);
      forall k | 0 <= k < |slots| ensures SlotOk(c, w, slots, engine, k) {
        assert SlotOk(c, locked, slots, engine, k);
      }
    }

    // ----------------------------------------------- worker: batched mode

    /** What slot `i` can contribute to a batch with `left` tokens of room. */
    method Probe(i: nat, left: nat) returns (v: Visited, input: BatchInput)
      requires Ok() && SlotsOk(c, w, slots, engine) && i < |slots| && c.shape.batchCapacity > 0
      modifies `w, `place, `horizon
      ensures Ok() && SlotsOk(c, w, slots, engine) && Later(old(w), w)
      ensures v.Vacant? <==> slots[i].None?
      ensures !v.Failed?
      ensures v.Skipped? ==> SkippedNow(w, slots[i].value.job)
      ensures v.Waits? ==> left < Prefixes.BatchBudget(c.shape) && TooWide(c, w, slots, i, left)
      ensures v.Advanced? ==>
        InputOk(c, w, slots, input) && input.resident == i && v.used == |input.tokens| <= left
      ensures v.Advanced? ==> Live(old(w), slots, i)
      ensures Onward(old(w), old(horizon), w, horizon)
    {
      hide WorldOk, Deeds, Delivered, NoticeOk, Grows;
      OnwardSame(w, w, horizon);
      input := BatchInput(i, 0, [], false);
      if slots[i].None? {
        return Vacant, input;
      }
      var r := slots[i].value;
      Pause();
      if w.streams[r.job].Cancelled() {
        return Skipped, input;
      }
      ghost var before, h := w, horizon;
      Pause();
      LaterTransitive(old(w), before, w);
      OnwardChain(old(w), old(horizon), before, h, w, horizon);
      if !w.streams[r.job].Room() {
        return Skipped, input;
      }
      assert SlotOk(c, w, slots, engine, i);
      var prompt := w.streams[r.job].request.prompt;
      var count, ids := 1, [];
      if r.position < |prompt| {
        // As in serial mode the boundary and quantum errors of the worker cannot occur.
        Prefixes.LimitFits(c.shape, r.position, |prompt|);
        Prefixes.ChunkFits(c.shape,
          Min(Prefixes.PrefillLimit(c.shape, r.position, |prompt|), Prefixes.BatchBudget(c.shape)));
        count := Prefixes.BatchWidth(c.shape, r.position, |prompt|);
        ids := prompt[r.position..r.position + count];
      } else {
        ids := [r.next.value];
      }
      if count > left {
        return Waits, input;
      }
      return Advanced(count), BatchInput(i, r.position, ids, r.position + count >= |prompt|);
    }

    /** Ask the slot at `offset` of the turn, with what it does to the cursor and the collection. */
    method ProbeAt(had: seq<BatchInput>, was: Tick, offset: nat, left: nat, ghost began: World)
      returns (v: Visited, inputs: seq<BatchInput>, tick: Tick)
      requires Ok() && SlotsOk(c, w, slots, engine) && c.shape.batchCapacity > 0 && offset < c.residents
      requires was.start < c.residents && PlanOk(c, w, slots, had, was, offset)
      requires Later(began, w) && AnswersOk(began, w, slots, was) && JobsIn(began, slots)
      modifies `w, `place, `horizon, `cursor
      ensures Ok() && SlotsOk(c, w, slots, engine) && Later(began, w) && w.open == old(w.open)
      ensures Onward(old(w), old(horizon), w, horizon)
      ensures tick.start == was.start && tick.next == was.next && tick.occupied == was.occupied
      ensures v.Waits? ==> left < Prefixes.BatchBudget(c.shape) && cursor == Turned(c.residents, was.start, offset)
      ensures v.Waits? ==> TooWide(c, w, slots, Rotate(c.residents, was.start, offset), left)
      ensures v.Advanced? ==> cursor == Turned(c.residents, was.start, offset + 1)
      ensures v.Vacant? || v.Skipped? ==> cursor == old(cursor)
      ensures PlanOk(c, w, slots, inputs, tick, if v.Waits? then offset else offset + 1) && !v.Failed?
      ensures AnswersOk(began, w, slots, tick)
      ensures Spent(c.residents, tick, if v.Waits? then offset else offset + 1)
        == Spent(c.residents, was, offset) + if v.Advanced? then v.used else 0
      ensures SequenceBatch.Total(Slices(inputs)) ==
        SequenceBatch.Total(Slices(had)) + (if v.Advanced? then v.used else 0)
      ensures v.Advanced? ==> v.used <= left
    {
      hide WorldOk, Deeds, Delivered, NoticeOk, SlotsOk, InputOk, Later, PlanOk, Extends, Onward, SkippedNow, Grows;
      hide TooWide, AnswersOk, Spent, Calm, JobsIn;
      var index := Rotate(c.residents, was.start, offset);
      var input;
      PlanReached(c, w, slots, had, was, offset);
      v, input := Probe(index, left);
      PlanSurvivesClients(c, old(w), w, slots, had, was, offset);
      ProbeSkips(c, began, old(w), w, slots, was, index, v);
      inputs, tick := had, was;
      if v.Waits? {
        cursor := index;
        return;
      }
      PlanNext(c, w, slots, had, was, offset, v, input);
      SpentNext(c.residents, was, offset, v);
      tick := Noted(was, index, v);
      if v.Advanced? {
        TotalOfMore(had, input);
        inputs := had + [input];
        NextSlot(c.residents, was.start, offset);
        cursor := (index + 1) % c.residents;
      }
    }

    /** Collect one batch, in rotation order from the cursor. */
    method PlanBatch() returns (inputs: seq<BatchInput>, tick: Tick)
      requires Ok() && SlotsOk(c, w, slots, engine) && c.shape.batchCapacity > 0
      modifies `w, `place, `horizon, `cursor
      ensures Ok() && SlotsOk(c, w, slots, engine) && Later(old(w), w) && w.open == old(w.open)
      ensures exists offset: nat :: PlanOk(c, w, slots, inputs, tick.(next := old(cursor)), offset)
      ensures SequenceBatch.Total(Slices(inputs)) <= Prefixes.BatchBudget(c.shape)
      ensures tick.start == old(cursor) && tick.next == cursor && tick.occupied == Occupied(slots)
      ensures Fair(c.residents, tick) && AnswersOk(old(w), w, slots, tick) && Full(c, w, slots, tick)
      ensures Onward(old(w), old(horizon), w, horizon)
    {
      hide WorldOk, Deeds, Delivered, NoticeOk, SlotsOk, Fair, Later, PlanOk, AnswersOk, SkippedNow, Calm;
      hide TooWide, Full, Spent, Onward, Grows, Turned;
      OnwardSame(w, w, horizon);
      TurnedNowhere(c.residents, cursor);
      var budget, tokens, offset := Prefixes.BatchBudget(c.shape), 0, 0;
      inputs := [];
      tick := Tick(cursor, cursor, Occupied(slots), map[], {});
      ghost var moved := 0;
      PlanStart(c, w, slots, tick);
      LaterReflexive(w);
      DistinctSlots(c, w, slots, place);
      NoSkips(w, slots, tick);
      SpentNothing(c.residents, tick, 0);
      while offset < c.residents
        invariant Ok() && SlotsOk(c, w, slots, engine) && Later(old(w), w)
        invariant Onward(old(w), old(horizon), w, horizon)
        invariant 0 <= moved <= offset <= c.residents
        invariant tokens == SequenceBatch.Total(Slices(inputs)) <= budget
        invariant tick.start == tick.next == old(cursor) && tick.occupied == Occupied(slots) && w.open == old(w.open)
        invariant cursor == Turned(c.residents, tick.start, moved) && (tokens > 0 ==> moved > 0)
        invariant PlanOk(c, w, slots, inputs, tick, offset)
        invariant AnswersOk(old(w), w, slots, tick) && tokens == Spent(c.residents, tick, offset)
      {
        ghost var before, h := w, horizon;
        var v;
        v, inputs, tick := ProbeAt(inputs, tick, offset, budget - tokens, old(w));
        OnwardChain(old(w), old(horizon), before, h, w, horizon);
        if v.Waits? {
          moved := offset;
          break;
        }
        offset := offset + 1;
        if v.Advanced? {
          tokens := tokens + v.used;
          moved := offset;
        }
      }
      PlanIsFair(c, w, slots, inputs, tick, cursor, offset, moved);
      PlanIsFull(c, w, slots, inputs, tick, offset, cursor);
      SkipsKept(old(w), w, slots, tick, cursor);
      tick := tick.(next := cursor);
    }

    /** One packed submission: every member's engine state takes its tokens, sampling members answer. */
    method EngineBatch(inputs: seq<BatchInput>) returns (ok: bool, outputs: seq<Option<Token>>)
      requires DistinctResidents(inputs) && forall k | 0 <= k < |inputs| :: inputs[k].resident < |engine|
      modifies `engine
      ensures |engine| == |old(engine)| && (!faulty ==> ok)
      ensures ok ==> Forwarded(c, old(engine), engine, inputs, outputs, |inputs|)
    {
      outputs := [];
      for n := 0 to |inputs|
        invariant Forwarded(c, old(engine), engine, inputs, outputs, n)
      {
        var done, output := EngineRun(inputs[n].resident, inputs[n].tokens, inputs[n].sample);
        if !done {
          return false, outputs;
        }
        outputs := outputs + [output];
      }
      ok := true;
    }

    /** Account for one member of a completed submission. */
    method LandMember(inputs: seq<BatchInput>, outputs: seq<Option<Token>>, k: nat) returns (ok: bool)
      requires Free() && k < |inputs| && Flight(c, w, slots, engine, inputs, outputs, k)
      modifies `w, `place, `horizon, `slots, `hand
      ensures Free() && w.open == old(w.open) && (!faulty ==> ok)
      ensures ok ==> Flight(c, w, slots, engine, inputs, outputs, k + 1)
      ensures ok ==>
        && inputs[k].resident < |old(slots)| && old(slots)[inputs[k].resident].Some?
        && Undisturbed(old(w), w, old(slots)[inputs[k].resident].value.job)
      ensures ok ==>
        && inputs[k].resident < |slots| && slots == old(slots)[inputs[k].resident := slots[inputs[k].resident]]
        && MovedBy(old(slots)[inputs[k].resident], slots[inputs[k].resident], |inputs[k].tokens|)
      ensures Onward(old(w), old(horizon), w, horizon)
    {
      hide WorldOk, Deeds, Delivered, NoticeOk;
      assert InFlight(c, w, slots, engine, inputs[k], outputs[k]);
      var index := inputs[k].resident;
      ghost var job := slots[index].value.job;
      var finished := FinishAdvance(index, |inputs[k].tokens|, outputs[k]);
      ghost var accounted := w;
      ok := Settle(index, finished);
      if ok {
        UndisturbedChain(old(w), accounted, w, job);
        WorldPlaced(c, old(w), old(slots), old(place));
        assert SlotOk(c, w, slots, engine, index);
        Land(c, old(w), w, old(slots), slots, old(place), engine, inputs, outputs, k);
      }
    }

    /** One packed submission of everything that is ready, and its accounting. */
    method BatchTick() returns (ok: bool, tick: Tick)
      requires Free() && SlotsOk(c, w, slots, engine) && c.shape.batchCapacity > 0
      modifies `w, `place, `horizon, `slots, `engine, `cursor, `hand
      ensures Free() && Onward(old(w), old(horizon), w, horizon)
      ensures w.open == old(w.open) && (!faulty ==> ok)
      ensures ok ==>
        && SlotsOk(c, w, slots, engine)
        && tick.start == old(cursor) && tick.next == cursor && tick.occupied == Occupied(old(slots))
        && Fair(c.residents, tick) && TickMoves(old(slots), slots, tick) && AnswersOk(old(w), w, old(slots), tick)
        && ForwardsOk(c, old(w), old(slots), tick) && Full(c, old(w), old(slots), tick)
    {
      hide WorldOk, Deeds, Delivered, NoticeOk, Fair, Accounted, TickMoves;
      hide AnswersOk, OthersCalm, ForwardsOk, JobsIn, Grows, Later, PlanOk, Full;
      var inputs;
      inputs, tick := PlanBatch();
      ok := true;
      ghost var offset: nat :| PlanOk(c, w, slots, inputs, tick.(next := old(cursor)), offset);
      PlanFacts(c, w, slots, inputs, tick.(next := old(cursor)), offset);
      DistinctSlots(c, old(w), slots, old(place));
      PlannedForwards(c, w, slots, inputs, tick.(next := old(cursor)), offset);
      ForwardsEarlier(c, old(w), w, slots, tick.(next := old(cursor)), cursor);
      FullEarlier(c, old(w), w, slots, tick, cursor);
      ghost var planned, was, places, h := w, slots, place, horizon;
      if inputs != [] {
        WorkerBatchesAreAcceptable(c, w, slots, place, engine, inputs);
        assert SequenceBatch.Acceptable(Slices(inputs), c.residents, c.shape.batchCapacity, c.context);
        ok := SubmitAndLand(inputs);
        OnwardChain(old(w), old(horizon), planned, h, w, horizon);
        if ok {
          DistinctSlots(c, planned, was, places);
          SkipsKept(old(w), planned, was, tick, old(cursor));
          SkipsStay(c, old(w), planned, w, was, inputs, tick.(next := old(cursor)), offset);
          SkipsKept(old(w), w, was, tick.(next := old(cursor)), cursor);
        }
      } else {
        NothingAccounted(slots, inputs);
      }
      if ok {
        AccountedMoves(c, planned, was, slots, inputs, tick.(next := old(cursor)), offset);
        SameMoves(was, slots, tick.(next := old(cursor)), cursor);
      }
    }

    method SubmitAndLand(inputs: seq<BatchInput>) returns (ok: bool)
      requires Free() && SlotsOk(c, w, slots, engine)
      requires InputsOk(c, w, slots, inputs) && DistinctResidents(inputs)
      requires SequenceBatch.Acceptable(Slices(inputs), c.residents, c.shape.batchCapacity, c.context)
      modifies `w, `place, `horizon, `slots, `engine, `hand
      ensures Free() && Onward(old(w), old(horizon), w, horizon)
      ensures w.open == old(w.open) && (!faulty ==> ok)
      ensures ok ==> SlotsOk(c, w, slots, engine) && Accounted(old(slots), slots, inputs, |inputs|)
      ensures ok ==> OthersCalm(old(w), w, old(slots), inputs)
    {
      hide WorldOk, Deeds, Delivered, NoticeOk, InFlight, SlotOk, Accounted, MovedBy, OthersCalm;
      hide Grows, Undisturbed, Flight, Later, Extends, InputOk, Forwarded, Onward;
      OnwardSame(w, w, horizon);
      MembersInRange(c, w, slots, inputs);
      var outputs;
      ok, outputs := EngineBatch(inputs);
      if !ok {
        return;
      }
      TakeOff(c, w, slots, old(engine), engine, inputs, outputs);
      Interfere();
      FlightSurvivesClients(c, old(w), w, slots, engine, inputs, outputs, 0);
      NothingAccounted(slots, inputs);
      LaterIsCalm(old(w), w);
      OthersStart(old(w), w, slots, inputs);
      for k := 0 to |inputs|
        invariant Free() && Flight(c, w, slots, engine, inputs, outputs, k) && w.open == old(w.open)
        invariant Accounted(old(slots), slots, inputs, k) && OthersCalm(old(w), w, old(slots), inputs)
        invariant Onward(old(w), old(horizon), w, horizon)
      {
        ghost var before, found, h := slots, w, horizon;
        ok := LandMember(inputs, outputs, k);
        OnwardChain(old(w), old(horizon), found, h, w, horizon);
        if !ok {
          return;
        }
        AccountedAt(old(slots), before, inputs, k);
        AccountedNext(old(slots), before, slots, inputs, k);
        OthersNext(old(w), found, w, old(slots), inputs, k);
      }
      Landed(c, w, slots, engine, inputs, outputs);
    }

    // --------------------------------------------------- worker: the run

    /** The admissions at the top of an iteration. */
    method AdmitAll() returns (ok: bool, idle: bool)
      requires Free() && SlotsOk(c, w, slots, engine)
      modifies `w, `place, `horizon, `slots, `engine, `hand
      ensures Free() && w.open == old(w.open) && (ok ==> SlotsOk(c, w, slots, engine)) && (!faulty ==> ok)
      ensures ok ==> Admission(old(w), old(slots), w, slots)
      ensures ok ==> (idle <==> forall k | 0 <= k < c.residents :: slots[k].None?)
      ensures ok && slots[c.residents - 1].None? ==> w.queue == []
      ensures Onward(old(w), old(horizon), w, horizon)
    {
      hide WorldOk, Deeds, Delivered, NoticeOk, SlotsOk, Admitting, Readmitted;
      idle, ok := true, true;
      LaterReflexive(w);
      LaterGrows(w, w);
      for i := 0 to c.residents
        invariant Free() && SlotsOk(c, w, slots, engine) && w.open == old(w.open) && ok
        invariant idle <==> forall k | 0 <= k < i :: slots[k].None?
        invariant i > 0 && slots[i - 1].None? ==> w.queue == []
        invariant Admitting(old(w), w)
        invariant forall k | 0 <= k < i :: Readmitted(old(w), w, old(slots)[k], slots[k])
        invariant forall k | i <= k < c.residents :: slots[k] == old(slots)[k]
        invariant Onward(old(w), old(horizon), w, horizon)
      {
        ghost var before, were := w, slots;
        ok := AdmitSlot(i);
        if !ok {
          return;
        }
        AdmittingChain(old(w), before, w);
        forall k | 0 <= k < i + 1 ensures Readmitted(old(w), w, old(slots)[k], slots[k]) {
          if k < i {
            ReadmittedLater(old(w), before, w, old(slots)[k], slots[k]);
          } else {
            ReadmittedSince(old(w), before, w, old(slots)[k], slots[k]);
          }
        }
        idle := idle && slots[i].None?;
      }
      forall k | 0 <= k < c.residents ensures Readmitted(old(w), w, old(slots)[k], slots[k]) {
      }
    }

    /** One iteration of the serving loop: admissions, then a tick if anyone is resident; it leaves one log entry. */
    method Iterate() returns (ok: bool, idle: bool)
      requires Free() && SlotsOk(c, w, slots, engine)
      modifies `w, `place, `horizon, `slots, `engine, `cursor, `hand, `log
      ensures Free() && w.open == old(w.open) && (ok ==> SlotsOk(c, w, slots, engine)) && (!faulty ==> ok)
      ensures if ok then |log| == |old(log)| + 1 && log[..|old(log)|] == old(log) else log == old(log)
      ensures ok ==>
        var r := log[|old(log)|];
        && RoundOk(c, r) && r.found == old(w) && r.held == old(slots) && r.ended == w && r.now == slots
        && r.tick.start == old(cursor) && r.tick.next == cursor && (Fair(c.residents, r.tick) || w.stop)
        && (idle <==> Nobody(r)) && |r.was| == c.residents
        && (idle ==> slots == r.was && w == r.began && r.tick.occupied == {})
        && (r.was[c.residents - 1].None? ==> r.began.queue == [])
      ensures Onward(old(w), old(horizon), w, horizon)
    {
      hide WorldOk, Deeds, Delivered, NoticeOk, SlotsOk, Fair;
      hide TickMoves, AnswersOk, Admission, ForwardsOk, DistinctJobs, JobsBelow, JobsIn, Full;
      ok, idle := AdmitAll();
      if !ok {
        return;
      }
      ghost var began, seated := w, slots;
      DistinctSlots(c, w, slots, place);
      ResidentsBelowFront(c, w, slots, place);
      var tick := Tick(cursor, cursor, {}, map[], {});
      if idle {
        EmptyRound(c, w, slots, cursor);
      } else if c.shape.batchCapacity > 0 {
        ok, tick := BatchTick();
      } else {
        ok, tick := SerialTick();
      }
      if ok {
        log := log + [Round(old(w), old(slots), began, seated, w, slots, tick)];
      }
    }

    /** Reject one queued request on the way out; its registry entry goes with the final clear. */
    method DrainOne()
      requires Free() && !w.open && w.queue != []
      modifies `w, `place, `hand
      ensures Free() && !w.open && w.queue == old(w.queue)[1..] && |w.streams| == |old(w).streams|
      ensures var job := old(w.queue)[0];
        && job < |old(place)| && place == old(place)[job := Gone] && Undisturbed(old(w), w, job)
        && Parted(old(w).streams[job], w.streams[job])
      ensures Still(old(w), w)
    {
      hide WorldOk, Deeds, Delivered, NoticeOk, Parted;
      var job := w.queue[0];
      DrainKeeps(c, w, slots, place);
      w := w.(queue := w.queue[1..]);
      place := place[job := Publishing];
      hand := Some(job);
      TryNotice(job);
      NoticeGiven(old(w).streams[job], w.streams[job]);
      Retire(job);
    }

    /** Every resident gets its notice and leaves. */
    method FailAll(result: bool) returns (ok: bool)
      requires Free() && !w.open
      modifies `w, `place, `horizon, `slots, `hand
      ensures Free() && !w.open && (ok ==> result) && forall i | 0 <= i < c.residents :: slots[i].None?
      ensures Closing(old(w), old(place), w, place) && w.queue == old(w).queue
      ensures Onward(old(w), old(horizon), w, horizon)
    {
      hide WorldOk, Deeds, Delivered, NoticeOk, Parted;
      ok := result;
      ClosingStart(w, place);
      for i := 0 to c.residents
        invariant Free() && !w.open && (ok ==> result)
        invariant forall k | 0 <= k < i :: slots[k].None?
        invariant Closing(old(w), old(place), w, place) && w.queue == old(w).queue
        invariant Onward(old(w), old(horizon), w, horizon)
      {
        if slots[i].Some? {
          if ok {
            ok := *; // release of the engine's pages
          }
          SlotFacts(c, w, slots, place, i);
          ghost var before, were, job := w, place, slots[i].value.job;
          FailSlot(i);
          ClosingNext(old(w), old(place), before, were, w, job);
        }
      }
    }

    /** Stop taking requests, end every resident and queued stream, and empty the registry. */
    method Close(result: bool) returns (ok: bool)
      requires Free()
      modifies `w, `place, `horizon, `slots, `hand
      ensures Free() && Stopped(w, slots) && forall j | 0 <= j < |place| :: place[j].Gone?
      ensures WoundUp(old(w), old(slots), w) && (ok ==> result)
      ensures Onward(old(w), old(horizon), w, horizon)
    {
      hide WorldOk, Deeds, Delivered, NoticeOk, Parted, Grows, Closing, SameJob;
      CloseKeeps(c, w, slots, place);
      OnwardSame(w, w.(open := false), horizon);
      w := w.(open := false);
      ghost var shut, were, h := w, place, horizon;
      ok := FailAll(result);
      OnwardChain(old(w), h, shut, h, w, horizon);
      ghost var failed, f := w, horizon;
      DrainAll(shut, were);
      OnwardChain(old(w), h, failed, f, w, horizon);
      NobodyLeft(c, w, slots, place);
      ClearKeeps(c, w, slots, place);
      ClosingIsWoundUp(c, shut, old(slots), were, w, place);
      OnwardSame(w, w.(registry := map[]), horizon);
      OnwardChain(old(w), h, w, horizon, w.(registry := map[]), horizon);
      w := w.(registry := map[]);
      if ok {
        ok := *; // clearing the prefix cache
      }
    }

    /** Every queued request is rejected; at the end nobody is inside the registry lock. */
    method DrainAll(ghost shut: World, ghost were: seq<Place>)
      requires Free() && !w.open && (forall k | 0 <= k < c.residents :: slots[k].None?)
      requires Closing(shut, were, w, place)
      modifies `w, `place, `horizon, `hand
      ensures Free() && !w.open && w.queue == [] && w.holder.None? && Closing(shut, were, w, place)
      ensures Onward(old(w), old(horizon), w, horizon)
    {
      hide WorldOk, Deeds, Delivered, NoticeOk, Parted, Grows, Closing, SameJob;
      ghost var placed := place;
      Interfere();
      ClosingLater(shut, were, old(w), placed, w, place);
      while w.queue != []
        invariant Free() && !w.open && Closing(shut, were, w, place) && Onward(old(w), old(horizon), w, horizon)
        decreases horizon + |w.queue|
      {
        ghost var before, mid, h := w, place, horizon;
        QueueHead(c, w, slots, place);
        DrainOne();
        ClosingNext(shut, were, before, mid, w, before.queue[0]);
        OnwardStill(old(w), old(horizon), before, h, w);
        ghost var drained, left := w, place;
        Interfere();
        ClosingLater(shut, were, drained, left, w, place);
        OnwardChain(old(w), old(horizon), drained, h, w, horizon);
      }
      ghost var empty, last, h := w, place, horizon;
      Lock();
      ClosingLater(shut, were, empty, last, w, place);
      OnwardChain(old(w), old(horizon), empty, h, w, horizon);
    }

    /** The serving loop, until shutdown is requested, the clients are gone, or the engine fails. */
    method Serve(iterations: nat, gone: nat -> bool) returns (ok: bool, ghost cause: Cause)
      requires Free() && w.open && SlotsOk(c, w, slots, engine)
      modifies `w, `place, `horizon, `slots, `engine, `cursor, `hand, `log
      ensures Free() && w.open && (!faulty ==> !cause.EngineFailed?) && (ok <==> !cause.EngineFailed?)
      ensures |old(log)| <= |log| <= |old(log)| + iterations && log[..|old(log)|] == old(log)
      ensures RunOk(c, old(w), old(slots), old(cursor), log[|old(log)|..], w, slots, cause) && Grows(old(w), w)
      ensures LeavesLast(log[|old(log)|..], gone, cause)
      ensures cause.TurnsOver? ==> |log| == |old(log)| + iterations
      ensures cause.StopRequested? && !old(w).stop ==> old(horizon) > 0
    {
      hide WorldOk, Deeds, Delivered, NoticeOk, SlotsOk, Fair, RoundOk, Later, Extends, Grows, Serving, RunOk, Nobody;
      hide Manned, LeavesLast;
      var left := iterations;
      ghost var a, first, start, rounds: seq<Round> := w, slots, cursor, [];
      ServingStart(c, w, slots, cursor);
      OnwardSame(w, w, horizon);
      NobodyYet(gone);
      ok, cause := true, StopRequested;
      while true
        invariant Free() && w.open && SlotsOk(c, w, slots, engine) && 0 <= left && |rounds| + left == iterations
        invariant log == old(log) + rounds && Serving(c, a, first, start, rounds, w, slots, cursor)
        invariant Onward(old(w), old(horizon), w, horizon) && ok && cause.StopRequested?
        invariant Manned(rounds, gone)
        decreases left
      {
        ghost var top, h := w, horizon;
        Pause();
        OnwardChain(old(w), old(horizon), top, h, w, horizon);
        ServingLater(c, a, first, start, rounds, top, slots, cursor, w);
        GrowsStopped(old(w), old(horizon), w, horizon);
        MannedLeaves(rounds, gone, cause);
        if w.stop {
          ServingEnds(c, a, first, start, rounds, w, slots, cursor, cause);
          return;
        }
        ghost var found, held, from, g := w, slots, cursor, horizon;
        if left == 0 {
          Shutdown();
          cause := TurnsOver;
          MannedLeaves(rounds, gone, cause);
          ServingLater(c, a, first, start, rounds, found, slots, cursor, w);
          ServingEnds(c, a, first, start, rounds, w, slots, cursor, cause);
          return;
        }
        var idle;
        ok, idle := Iterate();
        OnwardChain(old(w), old(horizon), found, g, w, horizon);
        GrowsStopped(old(w), old(horizon), w, horizon);
        if !ok {
          cause := EngineFailed;
          MannedLeaves(rounds, gone, cause);
          ServingFails(c, a, first, start, rounds, found, held, from, w, slots);
          return;
        }
        ghost var round := log[|log| - 1];
        ServingMore(c, a, first, start, rounds, from, round);
        MannedMore(rounds, round, gone);
        rounds := rounds + [round];
        assert log == old(log) + rounds && log[|old(log)|..] == rounds;
        if idle && gone(iterations - left) {
          cause := Abandoned;
          ServingEnds(c, a, first, start, rounds, w, slots, cursor, cause);
          return;
        }
        left := left - 1;
      }
    }

    /**
     A whole run of the worker, on any client behaviour: `iterations` is the
     number of loop turns after which shutdown is requested at the latest, and
     `gone` says after which of them nobody is left who could send a request.
     The log has one entry for each completed iteration: the first starts from
     where the run started, each from where the last one ended, up to client
     steps, and the closing begins where the log ends.
    */
    method Run(iterations: nat, gone: nat -> bool)
      returns (ok: bool, ghost closing: World, ghost parting: seq<Option<Running>>, ghost cause: Cause)
      requires Free() && w.open && SlotsOk(c, w, slots, engine)
      modifies `w, `place, `horizon, `slots, `engine, `cursor, `hand, `log
      ensures Free() && Stopped(w, slots) && forall j | 0 <= j < |place| :: place[j].Gone?
      ensures forall j | 0 <= j < |w.streams| :: StreamOk(c, w.streams[j], Gone, false)
      ensures |old(log)| <= |log| <= |old(log)| + iterations && log[..|old(log)|] == old(log)
      ensures RunOk(c, old(w), old(slots), old(cursor), log[|old(log)|..], closing, parting, cause)
      ensures WoundUp(closing, parting, w) && Grows(old(w), w) && (!faulty ==> !cause.EngineFailed?)
      ensures forall i: nat, t: nat | i < c.residents :: ServedFrom(c.residents, log[|old(log)|..], i, t)
      ensures LeavesLast(log[|old(log)|..], gone, cause) && (ok ==> !cause.EngineFailed?)
      ensures cause.TurnsOver? ==> |log| == |old(log)| + iterations
      ensures cause.StopRequested? && !old(w).stop ==> old(horizon) > 0
    {
      hide LeavesLast;
      hide WorldOk, Deeds, Delivered, NoticeOk, SlotsOk, RunOk, WoundUp, StreamOk, Linked, Grows, ServedFrom;
      ok, cause := Serve(iterations, gone);
      ghost var h := horizon;
      closing, parting := w, slots;
      ok := Close(ok);
      GrowsOnward(old(w), closing, h, w, horizon);
      RunLinked(c, old(w), old(slots), old(cursor), log[|old(log)|..], closing, parting, cause);
      forall i: nat, t: nat | i < c.residents ensures ServedFrom(c.residents, log[|old(log)|..], i, t) {
        ChainServes(c, log[|old(log)|..], i, t);
      }
      forall j | 0 <= j < |w.streams| ensures StreamOk(c, w.streams[j], Gone, false) {
        JobFacts(c, w, slots, place, j);
      }
    }
  }
}
