/** The state shared by clients and worker, the worker's own state, and what holds of both between steps. */
module ServiceState {
  import opened Requests
  import Prefixes
  import SequenceBatch

  const OUTPUT_CAPACITY := 64

  /**
   One accepted request's output channel: everything ever sent, and how much of it was consumed.
   `notice` remembers the failure notice: how much the client had consumed when the worker tried to send it.
   */
  datatype Stream = Stream(
    request: Request, cached: nat, sent: seq<Item>, drained: nat, cancel: bool, closed: bool, notice: Option<nat>)
  {
    predicate Cancelled() {
      cancel || closed
    }

    predicate Room() {
      |sent| < drained + OUTPUT_CAPACITY
    }
  }

  /**
   Streams are numbered in order of acceptance; a number identifies a job.
   `holder` is the job of the generate call that is inside the registry lock,
   past its queue push and before its registry insert.
   */
  datatype World = World(
    streams: seq<Stream>, queue: seq<nat>, registry: map<string, nat>, holder: Option<nat>,
    open: bool, stop: bool)

  datatype Running = Running(
    job: nat, position: nat, generated: nat, next: Option<Token>, cached: nat, terminal: Option<Item>)

  /**
   Who has a job. `InHand` and `Ending` jobs are worker locals that still have
   their registry entry, before and after a failure notice; a `Publishing` job
   has lost the entry and may still get its terminal item.
   */
  datatype Place = Queued | Resident(slot: nat) | InHand | Ending | Publishing | Gone

  datatype Config = Config(
    model: Model, shape: Prefixes.Shape, residents: nat, context: nat, vocab: nat)
  {
    ghost predicate Valid() {
      shape.Valid() && 0 < residents <= 64 && 0 < context <= SequenceBatch.INT32_MAX
      && shape.batchCapacity <= SequenceBatch.INT32_MAX
    }
  }

  predicate Owned(p: Place) {
    p.Queued? || p.Resident? || p.InHand? || p.Ending?
  }

  predicate InWorkerLocal(p: Place) {
    p.InHand? || p.Ending? || p.Publishing?
  }

  /**
   Queue, slots and places describe the same assignment, so no job is in two places; the queue is in order of
   acceptance, behind everything already taken from it.
   */
  ghost predicate Placed(w: World, slots: seq<Option<Running>>, place: seq<Place>) {
    && |place| == |w.streams|
    && (forall k | 0 <= k < |w.queue| :: w.queue[k] < |place| && place[w.queue[k]] == Queued)
    && (forall j, k | 0 <= j < k < |w.queue| :: w.queue[j] < w.queue[k])
    && (forall j | 0 <= j < |place| && place[j].Queued? :: j in w.queue)
    && (forall j, k | 0 <= j < |place| && !place[j].Queued? && 0 <= k < |w.queue| :: j < w.queue[k])
    && (forall i | 0 <= i < |slots| && slots[i].Some? ::
          slots[i].value.job < |place| && place[slots[i].value.job] == Resident(i))
    && (forall j | 0 <= j < |place| && place[j].Resident? ::
          place[j].slot < |slots| && slots[place[j].slot].Some? && slots[place[j].slot].value.job == j)
  }

  predicate Entered(w: World, j: nat)
    requires j < |w.streams|
  {
    var id := w.streams[j].request.id;
    id in w.registry && w.registry[id] == j
  }

  /** While the queue is open the registry is exactly the owned jobs, up to the one inside the lock. */
  ghost predicate Registered(w: World, place: seq<Place>)
    requires |place| == |w.streams|
  {
    && (forall id | id in w.registry ::
          && w.registry[id] < |w.streams| && w.streams[w.registry[id]].request.id == id
          && (w.open ==> Owned(place[w.registry[id]])))
    && (forall j | 0 <= j < |place| && Owned(place[j]) :: w.holder == Some(j) || Entered(w, j))
    && (w.holder.Some? ==>
          && w.holder.value < |w.streams|
          && w.streams[w.holder.value].request.id !in w.registry
          && (w.open ==> Owned(place[w.holder.value])))
  }

  /**
   Without a notice the last item, if any, is an output. With one, the stream was ended by it exactly if it had room.
   */
  ghost predicate NoticeOk(st: Stream) {
    match st.notice
    case None => st.sent == [] || st.sent[|st.sent| - 1].Output?
    case Some(read) =>
      && read <= st.drained
      && (!st.closed ==> (Ended(st.sent) <==> |Outputs(st.sent)| < read + OUTPUT_CAPACITY))
  }

  ghost predicate StreamOk(c: Config, st: Stream, p: Place, open: bool) {
    && Admissible(st.request, c.context, c.vocab)
    && st.drained <= |st.sent| <= st.drained + OUTPUT_CAPACITY
    && Delivered(c.model, st.request, st.cached, st.sent)
    && (p.Queued? ==> st.sent == [])
    && (Owned(p) && !p.Ending? ==> !Ended(st.sent))
    && NoticeOk(st) && (st.notice.Some? ==> !open && (p.Ending? || p.Publishing? || p.Gone?))
    && (p.Gone? ==> Ended(st.sent) || st.Cancelled() || st.notice.Some?)
  }

  ghost predicate DistinctJobs(slots: seq<Option<Running>>) {
    forall i, k | 0 <= i < k < |slots| && slots[i].Some? && slots[k].Some? :: slots[i].value.job != slots[k].value.job
  }

  ghost predicate JobsBelow(slots: seq<Option<Running>>, bound: nat) {
    forall i | 0 <= i < |slots| && slots[i].Some? :: slots[i].value.job < bound
  }

  ghost predicate JobsIn(w: World, slots: seq<Option<Running>>) {
    forall i | 0 <= i < |slots| && slots[i].Some? :: slots[i].value.job < |w.streams|
  }

  /** What every client and the worker may rely on between any two atomic steps. */
  ghost predicate WorldOk(c: Config, w: World, slots: seq<Option<Running>>, place: seq<Place>) {
    && Placed(w, slots, place)
    && Registered(w, place)
    && (forall j | 0 <= j < |w.streams| :: StreamOk(c, w.streams[j], place[j], w.open))
  }

  /** A resident between ticks; `ahead` tokens may already be with the engine. */
  ghost predicate RunningOk(c: Config, st: Stream, r: Running, history: seq<Token>, ahead: nat) {
    var prompt := st.request.prompt;
    && st.cached == r.cached && r.terminal.None? && |st.sent| == r.generated
    && (if r.generated == 0 then r.position < |prompt| && r.next.None?
        else r.position + 1 == |prompt| + r.generated
             && r.next == Some(Greedy(c.model, prompt, r.generated)[r.generated - 1]))
    && r.position + ahead <= |prompt| + r.generated
    && history == (prompt + Greedy(c.model, prompt, r.generated))[..r.position + ahead]
  }

  ghost predicate SlotOk(c: Config, w: World, slots: seq<Option<Running>>, engine: seq<seq<Token>>, i: nat)
    requires i < |slots| == |engine|
  {
    slots[i].Some? ==>
      && slots[i].value.job < |w.streams|
      && RunningOk(c, w.streams[slots[i].value.job], slots[i].value, engine[i], 0)
  }

  ghost predicate SlotsOk(c: Config, w: World, slots: seq<Option<Running>>, engine: seq<seq<Token>>)
  {
    |engine| == |slots| && forall i | 0 <= i < |slots| :: SlotOk(c, w, slots, engine, i)
  }

  ghost predicate PeersOk(c: Config, w: World, slots: seq<Option<Running>>, engine: seq<seq<Token>>, i: nat) {
    |engine| == |slots| && forall k | 0 <= k < |slots| && k != i :: SlotOk(c, w, slots, engine, k)
  }

  /** A resident whose last step ended it: with a terminal output ready to send, or because its client left. */
  ghost predicate FinishedOk(c: Config, st: Stream, r: Running) {
    match r.terminal
    case Some(item) =>
      && st.Room() && st.cached == r.cached
      && item == Expected(c.model, st.request, st.cached, |st.sent|) && item.finish.Some?
    case None => st.Cancelled()
  }

  /** What other threads cannot change about a job, and the directions in which they change the rest. */
  ghost predicate SameJob(s: Stream, t: Stream) {
    && t.request == s.request && t.cached == s.cached && t.sent == s.sent && t.notice == s.notice
    && s.drained <= t.drained && (s.cancel ==> t.cancel) && (s.closed ==> t.closed)
  }

  /** Everything but job `j` is as clients may have left it. */
  ghost predicate Undisturbed(a: World, b: World, j: nat) {
    && |a.streams| <= |b.streams|
    && (forall k | 0 <= k < |a.streams| && k != j :: SameJob(a.streams[k], b.streams[k]))
    && (a.stop ==> b.stop) && a.open == b.open
  }

  /** No job at all has been touched by the worker. */
  ghost predicate Calm(a: World, b: World) {
    && |a.streams| <= |b.streams|
    && (forall k | 0 <= k < |a.streams| :: SameJob(a.streams[k], b.streams[k]))
    && (a.stop ==> b.stop) && a.open == b.open
  }

  /** Client steps: they append jobs, set flags and consume outputs. */
  ghost predicate Later(a: World, b: World) {
    && |a.streams| <= |b.streams|
    && (forall k | 0 <= k < |a.streams| :: SameJob(a.streams[k], b.streams[k]))
    && a.queue <= b.queue && (forall k | |a.queue| <= k < |b.queue| :: b.queue[k] >= |a.streams|)
    && (b.holder.Some? ==> b.holder == a.holder || b.holder.value >= |a.streams|)
    && (a.stop ==> b.stop) && a.open == b.open
    && (!a.open ==> |a.streams| == |b.streams| && b.queue == a.queue)
  }

  /** Everything accepted before this job has been taken from the queue. */
  function Front(w: World): nat {
    if w.queue == [] then |w.streams| else w.queue[0]
  }

  /** What clients have done to each job: items taken, cancelled, receiver dropped. */
  function Deeds(streams: seq<Stream>): seq<(nat, bool, bool)> {
    seq(|streams|, k requires 0 <= k < |streams| => (streams[k].drained, streams[k].cancel, streams[k].closed))
  }

  /** What no step of anyone undoes. */
  ghost predicate Grows(a: World, b: World) {
    && |a.streams| <= |b.streams| && Front(a) <= Front(b) && (a.stop ==> b.stop)
    && forall k | 0 <= k < |a.streams| ::
         b.streams[k].request == a.streams[k].request && (a.streams[k].Cancelled() ==> b.streams[k].Cancelled())
  }

  /**
   From `a` to `b` while the client steps still to come went from `h` to `g`: each adds at most one job to the
   queue, and with none to come clients have done nothing.
   */
  ghost predicate Onward(a: World, h: nat, b: World, g: nat) {
    && g <= h && g + |b.queue| <= h + |a.queue| && Grows(a, b)
    && (h == 0 ==> Deeds(a.streams) == Deeds(b.streams) && a.stop == b.stop)
  }

  /** A step of the worker that no client took part in. */
  ghost predicate Still(a: World, b: World) {
    Grows(a, b) && Deeds(a.streams) == Deeds(b.streams) && a.stop == b.stop && a.open == b.open
  }

  /** Admission and clients: jobs only learn how much of their prompt was restored. */
  ghost predicate Admitting(a: World, b: World) {
    && |a.streams| <= |b.streams|
    && forall k | 0 <= k < |a.streams| :: SameJob(a.streams[k].(cached := b.streams[k].cached), b.streams[k])
  }

  lemma OnwardChain(a: World, h: nat, b: World, g: nat, d: World, f: nat)
    requires Onward(a, h, b, g) && Onward(b, g, d, f)
    ensures Onward(a, h, d, f)
  {
    hide Deeds;
  }

  lemma OnwardStill(a: World, h: nat, b: World, g: nat, d: World)
    requires Onward(a, h, b, g) && Still(b, d) && |d.queue| <= |b.queue|
    ensures Onward(a, h, d, g)
  {
    hide Deeds;
  }

  /** The worker asks for shutdown itself when its iterations are used up. */
  lemma GrowsStopped(a: World, h: nat, b: World, g: nat)
    requires Onward(a, h, b, g)
    ensures Grows(a, b) && Grows(a, b.(stop := true))
  {
  }

  lemma GrowsOnward(a: World, b: World, h: nat, d: World, g: nat)
    requires Grows(a, b) && Onward(b, h, d, g)
    ensures Grows(a, d)
  {
  }

  /** Opening state and registry are of no concern to any job. */
  lemma OnwardSame(a: World, b: World, h: nat)
    requires b.streams == a.streams && b.queue == a.queue && b.stop == a.stop
    ensures Onward(a, h, b, h)
  {
  }

  lemma LaterGrows(a: World, b: World)
    requires Later(a, b)
    ensures Grows(a, b) && Admitting(a, b) && a.open == b.open
  {
    forall k | 0 <= k < |a.streams| ensures SameJob(a.streams[k], b.streams[k]) {
    }
  }

  lemma AdmittingChain(a: World, b: World, c: World)
    requires Admitting(a, b) && Admitting(b, c)
    ensures Admitting(a, c)
  {
    forall k | 0 <= k < |a.streams| ensures SameJob(a.streams[k].(cached := c.streams[k].cached), c.streams[k]) {
      assert SameJob(a.streams[k].(cached := b.streams[k].cached), b.streams[k]);
      assert SameJob(b.streams[k].(cached := c.streams[k].cached), c.streams[k]);
    }
  }

  ghost predicate Extends(a: seq<Place>, b: seq<Place>) {
    |a| <= |b| && b[..|a|] == a && forall j | |a| <= j < |b| :: b[j].Queued?
  }

  /** `job` was accepted before everything in the queue. */
  ghost predicate Heads(job: nat, queue: seq<nat>) {
    forall k | 0 <= k < |queue| :: job < queue[k]
  }

  lemma HeadsStays(a: World, b: World, job: nat)
    requires Later(a, b) && Heads(job, a.queue) && job < |a.streams|
    ensures Heads(job, b.queue)
  {
  }

  lemma LaterReflexive(w: World)
    ensures Later(w, w)
  {
  }

  lemma LaterTransitive(a: World, b: World, c: World)
    requires Later(a, b) && Later(b, c)
    ensures Later(a, c)
  {
    forall k | 0 <= k < |a.streams|
      ensures SameJob(a.streams[k], c.streams[k])
    {
      assert SameJob(a.streams[k], b.streams[k]) && SameJob(b.streams[k], c.streams[k]);
    }
  }

  lemma LaterJob(a: World, b: World, j: nat)
    requires Later(a, b) && j < |a.streams|
    ensures j < |b.streams| && SameJob(a.streams[j], b.streams[j]) && Calm(a, b) && a.open == b.open
  {
  }

  lemma OnwardStreams(a: World, h: nat, b: World, g: nat)
    requires Onward(a, h, b, g)
    ensures |a.streams| <= |b.streams|
  {
  }

  lemma CalmJob(a: World, b: World, j: nat)
    requires Calm(a, b) && j < |a.streams|
    ensures j < |b.streams| && SameJob(a.streams[j], b.streams[j])
  {
  }

  lemma LaterIsCalm(a: World, b: World)
    requires Later(a, b)
    ensures Calm(a, b)
  {
  }

  lemma CalmChain(a: World, b: World, c: World)
    requires Calm(a, b) && Calm(b, c)
    ensures Calm(a, c)
  {
    forall k | 0 <= k < |a.streams|
      ensures SameJob(a.streams[k], c.streams[k])
    {
      assert SameJob(a.streams[k], b.streams[k]) && SameJob(b.streams[k], c.streams[k]);
    }
  }

  lemma CalmThenUndisturbed(a: World, b: World, c: World, j: nat)
    requires Calm(a, b) && Undisturbed(b, c, j)
    ensures Undisturbed(a, c, j)
  {
    forall k | 0 <= k < |a.streams| && k != j
      ensures SameJob(a.streams[k], c.streams[k])
    {
      assert SameJob(a.streams[k], b.streams[k]) && SameJob(b.streams[k], c.streams[k]);
    }
  }

  lemma UndisturbedThenCalm(a: World, b: World, c: World, j: nat)
    requires Undisturbed(a, b, j) && Calm(b, c)
    ensures Undisturbed(a, c, j)
  {
    forall k | 0 <= k < |a.streams| && k != j
      ensures SameJob(a.streams[k], c.streams[k])
    {
      assert SameJob(a.streams[k], b.streams[k]) && SameJob(b.streams[k], c.streams[k]);
    }
  }

  lemma UndisturbedChain(a: World, b: World, c: World, j: nat)
    requires Undisturbed(a, b, j) && Undisturbed(b, c, j)
    ensures Undisturbed(a, c, j)
  {
    forall k | 0 <= k < |a.streams| && k != j
      ensures SameJob(a.streams[k], c.streams[k])
    {
      assert SameJob(a.streams[k], b.streams[k]) && SameJob(b.streams[k], c.streams[k]);
    }
  }

  /** Nothing queued, resident or registered, and nothing ever again. */
  ghost predicate Stopped(w: World, slots: seq<Option<Running>>) {
    && !w.open && w.queue == [] && w.registry == map[] && w.holder.None?
    && (forall i | 0 <= i < |slots| :: slots[i].None?)
  }

  ghost predicate Held(slots: seq<Option<Running>>, j: nat) {
    exists i :: 0 <= i < |slots| && slots[i].Some? && slots[i].value.job == j
  }

  /**
   The last the worker does for a job it still owes something: the failure notice, tried once. With the receiver
   still there the stream has ended exactly if the client had left room by the time of the notice.
   */
  ghost predicate Parted(a: Stream, b: Stream) {
    && b.request == a.request && b.cached == a.cached && Outputs(b.sent) == a.sent
    && b.notice.Some? && a.drained <= b.notice.value
    && (a.cancel ==> b.cancel) && (a.closed ==> b.closed)
    && (!b.closed ==> (Ended(b.sent) <==> |a.sent| < b.notice.value + OUTPUT_CAPACITY))
  }

  lemma NoticeGiven(a: Stream, b: Stream)
    requires Parted(a, b)
    ensures b.notice.Some?
  {
  }

  /** What shutting down in world `a` with these residents leaves of each stream. */
  ghost predicate WoundUp(a: World, slots: seq<Option<Running>>, b: World) {
    && |a.streams| == |b.streams|
    && forall j: nat | j < |a.streams| ::
         if j in a.queue || Held(slots, j) then Parted(a.streams[j], b.streams[j])
         else SameJob(a.streams[j], b.streams[j])
  }

  /** A job that has left and whose client stayed: its stream has ended if and only if any notice found room. */
  lemma EndedIff(c: Config, st: Stream, open: bool)
    requires StreamOk(c, st, Gone, open) && !st.Cancelled()
    ensures Ended(st.sent) <==> match st.notice
      case None => true
      case Some(read) => |Outputs(st.sent)| < read + OUTPUT_CAPACITY
    ensures st.notice.None? ==> st.sent[|st.sent| - 1].Output?
  {
  }

  /** No two owned jobs share a request id, including the one whose registry entry is still to come. */
  lemma IdsAreUnique(c: Config, w: World, slots: seq<Option<Running>>, place: seq<Place>, j: nat, k: nat)
    requires WorldOk(c, w, slots, place)
    requires j < |place| && k < |place| && Owned(place[j]) && Owned(place[k])
    requires w.streams[j].request.id == w.streams[k].request.id
    ensures j == k
  {
    assert w.holder == Some(j) || Entered(w, j);
    assert w.holder == Some(k) || Entered(w, k);
  }

  /**
   What a client sees of any job at any time is a prefix of its solo run, complete if it ends with a reason, and it ends
   with a reason exactly at the first token that stops it.
   */
  lemma StreamsAreSolo(c: Config, w: World, slots: seq<Option<Running>>, place: seq<Place>, j: nat)
    requires WorldOk(c, w, slots, place) && j < |w.streams|
    ensures var st := w.streams[j];
      && st.request.maxTokens > 0
      && Outputs(st.sent) <= Alone(c.model, st.request, st.cached)
      && (Outputs(st.sent) == Alone(c.model, st.request, st.cached)
          <==> Ended(st.sent) && st.sent[|st.sent| - 1].Output?)
    ensures var st := w.streams[j];
      forall k | 0 <= k < |st.sent| && st.sent[k].Output? ::
        && Tells(c.model, st.request, st.cached, k, st.sent[k])
        && (Stops(st.request, TokenAt(c.model, st.request, k), k + 1) <==> st.sent[k].Terminal())
  {
    var st := w.streams[j];
    assert StreamOk(c, st, place[j], w.open);
    DeliveredIsSolo(c.model, st.request, st.cached, st.sent);
    forall k | 0 <= k < |st.sent| && st.sent[k].Output?
      ensures Tells(c.model, st.request, st.cached, k, st.sent[k])
      ensures Stops(st.request, TokenAt(c.model, st.request, k), k + 1) <==> st.sent[k].Terminal()
    {
      DeliveredEndsWhere(c.model, st.request, st.cached, st.sent, k);
    }
  }
}
