/**
 What the log of a run says about one request: the forwards it got, that they tile its tokens from the restored
 prefix on, and that a cold prompt was prefilled as forecast.
 */
module History {
  import opened Arith
  import opened Requests
  import opened ServiceState
  import opened Rotation
  import Prefixes

  ghost predicate HoldsAt(slots: seq<Option<Running>>, i: nat, j: nat) {
    i < |slots| && slots[i].Some? && slots[i].value.job == j
  }

  /** The forward job `j` got in a round, as (position, width). */
  ghost function Part(r: Round, j: nat): seq<(nat, nat)> {
    if i: nat :| HoldsAt(r.was, i, j) && i in r.tick.advanced then [(r.was[i].value.position, r.tick.advanced[i])]
    else []
  }

  /** All of them, in order. */
  ghost function Spans(rounds: seq<Round>, j: nat): seq<(nat, nat)> {
    if rounds == [] then [] else Spans(rounds[..|rounds| - 1], j) + Part(rounds[|rounds| - 1], j)
  }

  /** Each span begins where the one before ended, the first at `at`; none is empty. */
  ghost predicate Tiles(at: nat, spans: seq<(nat, nat)>, end: nat)
    decreases |spans|
  {
    if spans == [] then at == end
    else spans[0].0 == at && spans[0].1 > 0 && Tiles(at + spans[0].1, spans[1..], end)
  }

  /** Every row from the first to the last is computed in exactly one span. */
  lemma {:induction false} RowsOnce(at: nat, spans: seq<(nat, nat)>, end: nat, row: nat)
    requires Tiles(at, spans, end)
    ensures at <= end
    ensures at <= row < end <==> exists k | 0 <= k < |spans| :: spans[k].0 <= row < spans[k].0 + spans[k].1
    ensures forall k, l | 0 <= k < l < |spans| :: spans[k].0 + spans[k].1 <= spans[l].0
    ensures forall k | 0 <= k < |spans| :: at <= spans[k].0 && spans[k].0 + spans[k].1 <= end
    decreases |spans|
  {
    if spans != [] {
      var next := at + spans[0].1;
      RowsOnce(next, spans[1..], end, row);
      assert forall k | 0 <= k < |spans| - 1 :: spans[1..][k] == spans[k + 1];
      if at <= row < end {
        if row < next {
          assert spans[0].0 <= row < spans[0].0 + spans[0].1;
        } else {
          var k :| 0 <= k < |spans[1..]| && spans[1..][k].0 <= row < spans[1..][k].0 + spans[1..][k].1;
          assert spans[k + 1] == spans[1..][k];
        }
      }
      forall k | 0 <= k < |spans|
        ensures at <= spans[k].0 && spans[k].0 + spans[k].1 <= end
      {
        if k > 0 {
          assert spans[k] == spans[1..][k - 1];
        }
      }
      forall k, l | 0 <= k < l < |spans| ensures spans[k].0 + spans[k].1 <= spans[l].0 {
        assert spans[l] == spans[1..][l - 1];
        if k > 0 {
          assert spans[k] == spans[1..][k - 1];
        }
      }
    }
  }

  lemma {:induction false} TilesMore(at: nat, spans: seq<(nat, nat)>, end: nat, width: nat)
    requires Tiles(at, spans, end) && width > 0
    ensures Tiles(at, spans + [(end, width)], end + width)
    decreases |spans|
  {
    var more := spans + [(end, width)];
    if spans == [] {
      assert more[1..] == [];
    } else {
      TilesMore(at + spans[0].1, spans[1..], end, width);
      assert more[1..] == spans[1..] + [(end, width)];
    }
  }

  // ---------------------------------------------------------- one request's log

  /** Every forward was one the scheduler may run at its position. */
  ghost predicate Lawful(e: Prefixes.Shape, prompt: nat, spans: seq<(nat, nat)>)
    requires e.Valid()
  {
    forall k | 0 <= k < |spans| :: Prefixes.Forward(e, prompt, spans[k].0, spans[k].1)
  }

  /**
   What is known of job `j` in world `w`. Once it has been `seated`, with `cached` tokens restored, its spans tile
   its tokens from there to where it stands, or stood last.
   */
  ghost predicate Traced(c: Config, w: World, slots: seq<Option<Running>>, j: nat, spans: seq<(nat, nat)>,
                         seated: bool, cached: nat)
    requires c.Valid()
  {
    && (!seated ==> spans == [] && forall i: nat :: !HoldsAt(slots, i, j))
    && (seated ==>
          && j < Front(w) && j < |w.streams| && Lawful(c.shape, |w.streams[j].request.prompt|, spans)
          && exists end :: Tiles(cached, spans, end))
    && (forall i: nat | HoldsAt(slots, i, j) ::
          slots[i].value.cached == cached && Tiles(cached, spans, slots[i].value.position))
  }

  lemma TracedGrows(c: Config, a: World, b: World, slots: seq<Option<Running>>, j: nat, spans: seq<(nat, nat)>,
                    seated: bool, cached: nat)
    requires c.Valid() && Traced(c, a, slots, j, spans, seated, cached) && Grows(a, b)
    ensures Traced(c, b, slots, j, spans, seated, cached)
  {
    hide Lawful, Tiles;
    if seated {
      assert b.streams[j].request == a.streams[j].request;
    }
  }

  lemma NothingDone(e: Prefixes.Shape, prompt: nat, at: nat)
    requires e.Valid()
    ensures Lawful(e, prompt, []) && Tiles(at, [], at)
  {
  }

  lemma OnlyHolder(slots: seq<Option<Running>>, i: nat, j: nat)
    requires DistinctJobs(slots) && HoldsAt(slots, i, j)
    ensures forall k: nat | HoldsAt(slots, k, j) :: k == i
  {
  }

  /** Admission seats a job at most once, in its turn. */
  lemma TracedAdmission(c: Config, a: World, held: seq<Option<Running>>, b: World, was: seq<Option<Running>>, j: nat,
                        spans: seq<(nat, nat)>, seated: bool, cached: nat) returns (seated': bool, cached': nat)
    requires c.Valid() && Traced(c, a, held, j, spans, seated, cached) && Admission(a, held, b, was)
    requires DistinctJobs(was) && JobsBelow(was, Front(b)) && JobsIn(b, was)
    ensures Traced(c, b, was, j, spans, seated', cached')
    ensures seated ==> seated' && cached' == cached
    ensures forall i: nat | HoldsAt(was, i, j) :: seated' && was[i].value.cached == cached'
  {
    hide Lawful, Admitting;
    seated', cached' := seated, cached;
    if seated {
      assert b.streams[j].request == a.streams[j].request;
    }
    if i: nat :| HoldsAt(was, i, j) {
      assert Readmitted(a, b, held[i], was[i]);
      OnlyHolder(was, i, j);
      if was[i] == held[i] {
        assert HoldsAt(held, i, j);
      } else {
        seated', cached' := true, was[i].value.cached;
        NothingDone(c.shape, |b.streams[j].request.prompt|, cached');
      }
    }
  }

  lemma PartOf(r: Round, i: nat, j: nat)
    requires DistinctJobs(r.was) && HoldsAt(r.was, i, j)
    ensures Part(r, j) == if i in r.tick.advanced then [(r.was[i].value.position, r.tick.advanced[i])] else []
  {
    OnlyHolder(r.was, i, j);
  }

  lemma NoPart(r: Round, j: nat)
    requires forall i: nat :: !HoldsAt(r.was, i, j)
    ensures Part(r, j) == []
  {
  }

  /** A tick moves a job on by the one span it adds, or leaves it alone. */
  lemma TracedTick(c: Config, r: Round, j: nat, spans: seq<(nat, nat)>, seated: bool, cached: nat)
    requires c.Valid() && RoundOk(c, r) && Traced(c, r.began, r.was, j, spans, seated, cached)
    ensures Traced(c, r.ended, r.now, j, spans + Part(r, j), seated, cached)
  {
    hide Lawful, AnswersOk, Admission, Tiles;
    if seated {
      assert r.ended.streams[j].request == r.began.streams[j].request;
    }
    forall k: nat | HoldsAt(r.now, k, j) ensures HoldsAt(r.was, k, j) {
    }
    if i: nat :| HoldsAt(r.was, i, j) {
      PartOf(r, i, j);
      OnlyHolder(r.was, i, j);
      if i in r.tick.advanced {
        assert ForwardAt(c, r.began, r.was, i, r.tick.advanced[i]);
        TilesMore(cached, spans, r.was[i].value.position, r.tick.advanced[i]);
        LawfulMore(c.shape, |r.began.streams[j].request.prompt|, spans, r.was[i].value.position, r.tick.advanced[i]);
      } else {
        assert spans + Part(r, j) == spans;
      }
    } else {
      NoPart(r, j);
      assert spans + Part(r, j) == spans;
    }
  }

  lemma LawfulMore(e: Prefixes.Shape, prompt: nat, spans: seq<(nat, nat)>, at: nat, width: nat)
    requires e.Valid() && Lawful(e, prompt, spans) && Prefixes.Forward(e, prompt, at, width)
    ensures Lawful(e, prompt, spans + [(at, width)])
  {
    hide Prefixes.Forward;
  }

  /**
   Main: whatever job a run seats, the forwards in its log tile its tokens from the restored prefix on, each lawful.
   */
  lemma {:induction false} TraceRun(c: Config, rounds: seq<Round>, j: nat) returns (seated: bool, cached: nat)
    requires c.Valid() && Linked(c, rounds) && rounds != [] && forall i: nat :: !HoldsAt(rounds[0].held, i, j)
    ensures var last := rounds[|rounds| - 1]; Traced(c, last.ended, last.now, j, Spans(rounds, j), seated, cached)
    ensures forall t: nat, i: nat | t < |rounds| && HoldsAt(rounds[t].was, i, j) ::
      seated && rounds[t].was[i].value.cached == cached
    decreases |rounds|
  {
    hide RoundOk, Traced, Follows, Part;
    var n := |rounds| - 1;
    var r, front := rounds[n], rounds[..n];
    assert RoundOk(c, r);
    var spans := Spans(front, j);
    seated, cached := false, 0;
    if n == 0 {
      NotSeated(c, r.found, r.held, j);
    } else {
      assert Follows(c, rounds[n - 1], r);
      seated, cached := TraceRun(c, front, j);
      TracedFollows(c, rounds[n - 1], r, j, spans, seated, cached);
    }
    seated, cached := TraceRound(c, r, j, spans, seated, cached);
    forall t: nat, i: nat | t < |rounds| && HoldsAt(rounds[t].was, i, j)
      ensures seated && rounds[t].was[i].value.cached == cached
    {
      if t < n {
        assert rounds[t] == front[t];
      }
    }
  }

  lemma NotSeated(c: Config, w: World, slots: seq<Option<Running>>, j: nat)
    requires c.Valid() && forall i: nat :: !HoldsAt(slots, i, j)
    ensures Traced(c, w, slots, j, [], false, 0)
  {
  }

  lemma TracedFollows(c: Config, a: Round, r: Round, j: nat, spans: seq<(nat, nat)>, seated: bool, cached: nat)
    requires c.Valid() && Follows(c, a, r) && Traced(c, a.ended, a.now, j, spans, seated, cached)
    ensures Traced(c, r.found, r.held, j, spans, seated, cached)
  {
    hide Traced, Later, Fair;
    LaterGrows(a.ended, r.found);
    TracedGrows(c, a.ended, r.found, a.now, j, spans, seated, cached);
  }

  lemma TraceRound(c: Config, r: Round, j: nat, spans: seq<(nat, nat)>, seated: bool, cached: nat)
    returns (seated': bool, cached': nat)
    requires c.Valid() && RoundOk(c, r) && Traced(c, r.found, r.held, j, spans, seated, cached)
    ensures Traced(c, r.ended, r.now, j, spans + Part(r, j), seated', cached')
    ensures seated ==> seated' && cached' == cached
    ensures forall i: nat | HoldsAt(r.was, i, j) :: seated' && r.was[i].value.cached == cached'
  {
    hide Traced, Part, HoldsAt, TickMoves, AnswersOk, ForwardsOk;
    seated', cached' := TracedAdmission(c, r.found, r.held, r.began, r.was, j, spans, seated, cached);
    TracedTick(c, r, j, spans, seated', cached');
  }

  // ------------------------------------------------------ the forecast, as served

  /** The forwards of the prompt. */
  function Prefill(prompt: nat, spans: seq<(nat, nat)>): seq<(nat, nat)> {
    if spans == [] || spans[0].0 >= prompt then [] else [spans[0]] + Prefill(prompt, spans[1..])
  }

  /** They are an execution in the sense of the forecast, with whatever peers left of each tick. */
  lemma {:induction false} PrefillIsExecution(e: Prefixes.Shape, prompt: nat, at: nat, spans: seq<(nat, nat)>, end: nat)
    returns (lefts: seq<nat>)
    requires e.Valid() && Tiles(at, spans, end) && Lawful(e, prompt, spans)
    ensures Prefixes.Execution(e, prompt, at, lefts, Prefill(prompt, spans))
    decreases |spans|
  {
    hide Prefixes.Executes;
    if spans == [] || spans[0].0 >= prompt {
      lefts := [];
    } else {
      assert Prefixes.Forward(e, prompt, spans[0].0, spans[0].1);
      var left :| Prefixes.Executes(e, prompt, at, left, spans[0].1);
      assert forall k | 0 <= k < |spans| - 1 :: spans[1..][k] == spans[k + 1];
      var more := PrefillIsExecution(e, prompt, at + spans[0].1, spans[1..], end);
      lefts := [left] + more;
      assert lefts[1..] == more && Prefill(prompt, spans)[1..] == Prefill(prompt, spans[1..]);
    }
  }

  /** A forward of the prompt stays inside it. */
  lemma ForwardStays(e: Prefixes.Shape, prompt: nat, at: nat, width: nat)
    requires e.Valid() && at < prompt && Prefixes.Forward(e, prompt, at, width)
    ensures at + width <= prompt
  {
    Prefixes.LimitFits(e, at, prompt);
    var limit := Prefixes.PrefillLimit(e, at, prompt);
    var left :| Prefixes.Executes(e, prompt, at, left, width);
    if e.batchCapacity > 0 {
      Prefixes.ChunkFits(e, Min(limit, Prefixes.BatchBudget(e)));
    } else {
      Prefixes.ChunkFits(e, Min(left, limit));
    }
  }

  /** A prompt that has been passed was prefilled exactly to its end. */
  lemma {:induction false} PrefillEnds(e: Prefixes.Shape, prompt: nat, at: nat, spans: seq<(nat, nat)>, end: nat)
    requires e.Valid() && Tiles(at, spans, end) && Lawful(e, prompt, spans) && at <= prompt <= end
    ensures Prefixes.End(at, Prefill(prompt, spans)) == prompt
    decreases |spans|
  {
    hide Prefixes.Forward;
    if spans != [] && at < prompt {
      assert Prefixes.Forward(e, prompt, spans[0].0, spans[0].1);
      ForwardStays(e, prompt, at, spans[0].1);
      assert forall k | 0 <= k < |spans| - 1 :: spans[1..][k] == spans[k + 1];
      PrefillEnds(e, prompt, at + spans[0].1, spans[1..], end);
      assert Prefill(prompt, spans)[1..] == Prefill(prompt, spans[1..]);
    }
  }

  /** A job of a run that began with empty slots, with its prompt and what is to be known of its forwards. */
  ghost predicate ServedIn(c: Config, rounds: seq<Round>, j: nat, cached: nat, prompt: nat) {
    && c.Valid() && Linked(c, rounds) && rounds != [] && (forall i: nat :: !HoldsAt(rounds[0].held, i, j))
    && (exists t: nat, i: nat ::
          t < |rounds| && HoldsAt(rounds[t].was, i, j) && rounds[t].was[i].value.cached == cached)
    && var w := rounds[|rounds| - 1].ended;
    j < |w.streams| && prompt == |w.streams[j].request.prompt|
  }

  /** Every resident in the log of a run that began with empty slots is such a job. */
  lemma LogIsServed(c: Config, a: World, first: seq<Option<Running>>, start: nat, rounds: seq<Round>, closing: World,
                    parting: seq<Option<Running>>, cause: Cause, t: nat, i: nat) returns (prompt: nat)
    requires c.Valid() && RunOk(c, a, first, start, rounds, closing, parting, cause)
    requires forall k | 0 <= k < |first| :: first[k].None?
    requires t < |rounds| && i < |rounds[t].was| && rounds[t].was[i].Some?
    ensures ServedIn(c, rounds, rounds[t].was[i].value.job, rounds[t].was[i].value.cached, prompt)
  {
    hide Linked, RoundOk, Follows;
    var j := rounds[t].was[i].value.job;
    assert HoldsAt(rounds[t].was, i, j);
    var seated, cached := TraceRun(c, rounds, j);
    prompt := |rounds[|rounds| - 1].ended.streams[j].request.prompt|;
  }

  /** In both modes a resident's rows are the contiguous positions from its restored prefix on, none repeated. */
  lemma RowsAreContiguous(c: Config, rounds: seq<Round>, j: nat, cached: nat, prompt: nat) returns (end: nat)
    requires ServedIn(c, rounds, j, cached, prompt)
    ensures Tiles(cached, Spans(rounds, j), end) && Lawful(c.shape, prompt, Spans(rounds, j))
  {
    hide RoundOk, Linked, Lawful, Tiles, Spans;
    var seated, known := TraceRun(c, rounds, j);
    end :| Tiles(cached, Spans(rounds, j), end);
  }

  /**
   Main: a cold request is prefilled as `restore_prefix` forecast, whoever shared its ticks, if and only if full
   chunks fit the batch; for a prompt with a boundary that has had a forward.
   */
  lemma ServedAsForecastIff(c: Config, rounds: seq<Round>, j: nat, prompt: nat)
    requires ServedIn(c, rounds, j, 0, prompt) && c.shape.uncaptured && c.shape.cached && prompt > 0
    ensures Prefixes.FullChunksFit(c.shape) ==> Prefixes.Agrees(c.shape, prompt, Prefill(prompt, Spans(rounds, j)))
    ensures Spans(rounds, j) != [] && Prefixes.Boundary(c.shape, prompt) > 0 ==>
      (Prefixes.FullChunksFit(c.shape) <==> Prefixes.Agrees(c.shape, prompt, Prefill(prompt, Spans(rounds, j))))
  {
    hide Linked, Spans, Prefixes.Boundary;
    var spans := Spans(rounds, j);
    var end := RowsAreContiguous(c, rounds, j, 0, prompt);
    var lefts := PrefillIsExecution(c.shape, prompt, 0, spans, end);
    if Prefixes.FullChunksFit(c.shape) {
      Prefixes.LimitFits(c.shape, 0, prompt);
      Prefixes.ForecastIsExecuted(c.shape, prompt, 0, lefts, Prefill(prompt, spans));
    } else if spans != [] && Prefixes.Boundary(c.shape, prompt) > 0 {
      NarrowStart(c.shape, prompt, spans, end);
    }
  }

  lemma NarrowStart(e: Prefixes.Shape, prompt: nat, spans: seq<(nat, nat)>, end: nat)
    requires e.Valid() && e.uncaptured && e.cached && prompt > 0 && Prefixes.Boundary(e, prompt) > 0
    requires !Prefixes.FullChunksFit(e) && spans != [] && Tiles(0, spans, end) && Lawful(e, prompt, spans)
    ensures !Prefixes.Agrees(e, prompt, Prefill(prompt, spans))
  {
    hide Prefixes.Boundary, Prefixes.Forecast, Prefixes.BatchWidth;
    Prefixes.NarrowFirstForward(e, prompt);
    assert Prefixes.Forward(e, prompt, spans[0].0, spans[0].1);
    Prefixes.LimitFits(e, 0, prompt);
    Prefixes.DifferentHeads(Prefill(prompt, spans), Prefixes.Forecast(e, 0, Prefixes.Boundary(e, prompt)));
  }

  /** A cold request whose prompt has been passed took the ceiling of prompt over chunk forwards for it. */
  lemma ServedForwardCount(c: Config, rounds: seq<Round>, j: nat, prompt: nat, end: nat)
    requires ServedIn(c, rounds, j, 0, prompt) && c.shape.uncaptured && c.shape.cached && prompt > 0
    requires Prefixes.FullChunksFit(c.shape) && Tiles(0, Spans(rounds, j), end) && prompt <= end
    ensures |Prefill(prompt, Spans(rounds, j))| == CeilDiv(prompt, Prefixes.FullChunk(c.shape))
  {
    hide Linked, Spans, Prefixes.Boundary;
    var spans := Spans(rounds, j);
    var again := RowsAreContiguous(c, rounds, j, 0, prompt);
    var lefts := PrefillIsExecution(c.shape, prompt, 0, spans, end);
    PrefillEnds(c.shape, prompt, 0, spans, end);
    Prefixes.ForwardCount(c.shape, prompt, 0, lefts, Prefill(prompt, spans));
    CeilOfNothing(Prefixes.FullChunk(c.shape));
  }

  lemma CeilOfNothing(d: nat)
    requires d > 0
    ensures CeilDiv(0, d) == 0
  {
    DivUnique(d - 1, d, 0, d - 1);
  }
}
