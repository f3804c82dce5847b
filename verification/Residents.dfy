/** One resident's progress through its request, and why its peers do not disturb it. */
module Residents {
  import opened Requests
  import opened ServiceState

  /** Client steps never reach into a resident. */
  lemma SlotsSurviveClients(c: Config, a: World, b: World, slots: seq<Option<Running>>, engine: seq<seq<Token>>)
    requires SlotsOk(c, a, slots, engine) && Later(a, b)
    ensures SlotsOk(c, b, slots, engine)
  {
    forall i | 0 <= i < |slots|
      ensures SlotOk(c, b, slots, engine, i)
    {
      assert SlotOk(c, a, slots, engine, i);
      if slots[i].Some? {
        assert SameJob(a.streams[slots[i].value.job], b.streams[slots[i].value.job]);
      }
    }
  }

  /** Whatever happens to one resident's job, slot and engine state, its peers are as they were. */
  lemma PeersKept(c: Config, a: World, b: World, slots: seq<Option<Running>>, slots': seq<Option<Running>>,
                  place: seq<Place>, engine: seq<seq<Token>>, engine': seq<seq<Token>>, i: nat)
    requires Placed(a, slots, place) && i < |slots| == |slots'| && slots[i].Some?
    requires PeersOk(c, a, slots, engine, i) && Undisturbed(a, b, slots[i].value.job)
    requires |engine'| == |engine|
    requires forall k | 0 <= k < |slots| && k != i :: slots'[k] == slots[k] && engine'[k] == engine[k]
    ensures PeersOk(c, b, slots', engine', i)
  {
    forall k | 0 <= k < |slots'| && k != i
      ensures SlotOk(c, b, slots', engine', k)
    {
      assert SlotOk(c, a, slots, engine, k);
      if slots[k].Some? {
        assert place[slots[k].value.job] == Resident(k) && place[slots[i].value.job] == Resident(i);
        assert SameJob(a.streams[slots[k].value.job], b.streams[slots[k].value.job]);
      }
    }
  }

  /** Feeding a resident's next tokens keeps its engine history a prefix of prompt plus greedy tokens. */
  lemma FeedOk(c: Config, st: Stream, r: Running, history: seq<Token>, tokens: seq<Token>)
    requires RunningOk(c, st, r, history, 0)
    requires if r.position < |st.request.prompt|
      then
        && r.position + |tokens| <= |st.request.prompt|
        && tokens == st.request.prompt[r.position..r.position + |tokens|]
      else r.next.Some? && tokens == [r.next.value]
    ensures RunningOk(c, st, r, history + tokens, |tokens|)
  {
    var all := st.request.prompt + Greedy(c.model, st.request.prompt, r.generated);
    assert history == all[..r.position];
    assert tokens == all[r.position..r.position + |tokens|];
    assert history + tokens == all[..r.position + |tokens|];
  }

  /** Clients do not reach into a resident whose tokens are with the engine. */
  lemma RunningStays(c: Config, s: Stream, t: Stream, r: Running, history: seq<Token>, ahead: nat)
    requires RunningOk(c, s, r, history, ahead) && SameJob(s, t)
    ensures RunningOk(c, t, r, history, ahead)
  {
  }

  function Sampled(req: Request, token: Token, generated: nat, cached: nat): Item {
    Output(token, FirstOnly(req, generated == 1), FinishReason(req, token, generated), cached)
  }

  /** Once the engine holds everything so far, its sample is the next token of the solo run. */
  lemma SampleIsExpected(c: Config, st: Stream, r: Running, history: seq<Token>, ahead: nat)
    requires RunningOk(c, st, r, history, ahead) && ahead >= 1
    requires r.position + ahead >= |st.request.prompt|
    ensures r.position + ahead == |st.request.prompt| + r.generated
    ensures Greedy(c.model, st.request.prompt, r.generated + 1)
         == Greedy(c.model, st.request.prompt, r.generated) + [c.model(history)]
    ensures Sampled(st.request, c.model(history), r.generated + 1, r.cached)
         == Expected(c.model, st.request, st.cached, r.generated)
  {
    var all := st.request.prompt + Greedy(c.model, st.request.prompt, r.generated);
    assert all[..|all|] == all;
  }

  /** The resident after a step that consumed `count` tokens and produced `next`. */
  function Stepped(r: Running, count: nat, next: Option<Token>, sample: bool): Running {
    if sample && next.Some? then r.(position := r.position + count, next := next, generated := r.generated + 1)
    else r.(position := r.position + count)
  }

  lemma SteppedOk(c: Config, st: Stream, r: Running, history: seq<Token>, count: nat)
    requires RunningOk(c, st, r, history, count) && count >= 1
    requires r.position + count >= |st.request.prompt|
    ensures var item := Expected(c.model, st.request, st.cached, r.generated);
      RunningOk(c, st.(sent := st.sent + [item]), Stepped(r, count, Some(c.model(history)), true), history, 0)
  {
    SampleIsExpected(c, st, r, history, count);
    var prompt := st.request.prompt;
    var more := Greedy(c.model, prompt, r.generated + 1);
    assert (prompt + more)[..r.position + count] == prompt + Greedy(c.model, prompt, r.generated);
    assert (prompt + Greedy(c.model, prompt, r.generated))[..r.position + count]
      == prompt + Greedy(c.model, prompt, r.generated);
  }

  /**
   What admission is for: over a vocabulary that the model stays inside, the engine is never fed a token it does not
   have, nor more tokens than its context holds.
   */
  lemma FedWithinLimits(c: Config, st: Stream, p: Place, open: bool, r: Running, history: seq<Token>, ahead: nat)
    requires StreamOk(c, st, p, open) && p.Resident? && RunningOk(c, st, r, history, ahead)
    requires forall h :: c.model(h) < c.vocab
    ensures |history| <= c.context && forall i | 0 <= i < |history| :: history[i] < c.vocab
  {
    var all := st.request.prompt + Greedy(c.model, st.request.prompt, r.generated);
    GreedyInVocabulary(c.model, st.request.prompt, r.generated, c.vocab);
    if r.generated > 0 {
      var last := r.generated - 1;
      assert !Ended(st.sent) && st.sent[last] == Expected(c.model, st.request, st.cached, last);
    }
  }

  lemma {:induction false} GreedyInVocabulary(model: Model, prompt: seq<Token>, n: nat, vocab: nat)
    requires forall h :: model(h) < vocab
    ensures forall i | 0 <= i < n :: Greedy(model, prompt, n)[i] < vocab
  {
    if n > 0 {
      GreedyInVocabulary(model, prompt, n - 1, vocab);
    }
  }
}
