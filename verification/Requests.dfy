/**
 Requests, the items their output streams carry, and what one request produces
 when it has the engine to itself.

 The engine is a deterministic function of the tokens a resident has consumed,
 so a `Model` maps a token history to the greedily sampled next token.
 */
module Requests {

  datatype Option<+T> = None | Some(value: T)

  type Token = nat

  type Model = seq<Token> -> Token

  datatype Request = Request(
    id: string, prompt: seq<Token>, maxTokens: nat, eos: Option<Token>, stopTokens: seq<Token>)

  datatype Reason = StopEos | StopToken(token: Token) | Length

  /** One message of an output stream; `promptInfo` rides on the first output only. */
  datatype Item =
    | Output(token: Token, promptInfo: Option<seq<Token>>, finish: Option<Reason>, cached: nat)
    | Failure
  {
    /** Nothing may follow a terminal item. */
    predicate Terminal() {
      Failure? || finish.Some?
    }
  }

  /** What admission demands of a request: the capacity test of the backend. */
  ghost predicate Admissible(req: Request, context: nat, vocab: nat) {
    && req.prompt != []
    && (forall i | 0 <= i < |req.prompt| :: req.prompt[i] < vocab)
    && (forall i | 0 <= i < |req.stopTokens| :: req.stopTokens[i] < vocab)
    && (req.eos.Some? ==> req.eos.value < vocab)
    && req.maxTokens > 0
    && |req.prompt| + req.maxTokens <= context
  }

  /** The capacity test itself: token by token. */
  method ValidateCapacity(req: Request, context: nat, vocab: nat) returns (ok: bool)
    ensures ok <==> Admissible(req, context, vocab)
  {
    if req.prompt == [] || req.maxTokens == 0 || |req.prompt| + req.maxTokens > context {
      return false;
    }
    for i := 0 to |req.prompt|
      invariant forall j | 0 <= j < i :: req.prompt[j] < vocab
    {
      if req.prompt[i] >= vocab {
        return false;
      }
    }
    for i := 0 to |req.stopTokens|
      invariant forall j | 0 <= j < i :: req.stopTokens[j] < vocab
    {
      if req.stopTokens[i] >= vocab {
        return false;
      }
    }
    return req.eos.None? || req.eos.value < vocab;
  }

  /** Why generation stops at its `generated`-th token, if it does. */
  function FinishReason(req: Request, token: Token, generated: nat): Option<Reason> {
    if req.eos == Some(token) then Some(StopEos)
    else if token in req.stopTokens then Some(StopToken(token))
    else if generated >= req.maxTokens then Some(Length)
    else None
  }

  function FirstOnly(req: Request, first: bool): Option<seq<Token>> {
    if first then Some(req.prompt) else None
  }

  /** The first `n` tokens greedy decoding appends to `prompt`, finish rules aside. */
  function Greedy(model: Model, prompt: seq<Token>, n: nat): (tokens: seq<Token>)
    ensures |tokens| == n
  {
    if n == 0 then []
    else
      var before := Greedy(model, prompt, n - 1);
      before + [model(prompt + before)]
  }

  /** The `k`-th item of the request's stream. */
  function Expected(model: Model, req: Request, cached: nat, k: nat): Item {
    var token := Greedy(model, req.prompt, k + 1)[k];
    Output(token, FirstOnly(req, k == 0), FinishReason(req, token, k + 1), cached)
  }

  /** The items a stream may hold: the expected ones in order, stopping at the first terminal one. */
  ghost predicate Delivered(model: Model, req: Request, cached: nat, sent: seq<Item>) {
    && (forall k | 0 <= k < |sent| :: sent[k].Output? ==> sent[k] == Expected(model, req, cached, k))
    && (forall k | 0 <= k < |sent| - 1 :: !sent[k].Terminal())
  }

  predicate Ended(sent: seq<Item>) {
    sent != [] && sent[|sent| - 1].Terminal()
  }

  /**
   The request alone on a fresh engine: feed `input` to an engine that has
   consumed `history`, publish the sample, feed it back, until a finish rule fires.
   */
  function Solo(model: Model, req: Request, cached: nat, history: seq<Token>, emitted: nat,
                input: seq<Token>): seq<Item>
    requires emitted < req.maxTokens
    decreases req.maxTokens - emitted
  {
    var token := model(history + input);
    var finish := FinishReason(req, token, emitted + 1);
    [Output(token, FirstOnly(req, emitted == 0), finish, cached)]
    + if finish.Some? then [] else Solo(model, req, cached, history + input, emitted + 1, [token])
  }

  function Alone(model: Model, req: Request, cached: nat): seq<Item>
    requires req.maxTokens > 0
  {
    Solo(model, req, cached, [], 0, req.prompt)
  }

  lemma GreedyPrefix(model: Model, prompt: seq<Token>, m: nat, n: nat)
    requires m <= n
    ensures Greedy(model, prompt, n)[..m] == Greedy(model, prompt, m)
    decreases n
  {
    if m < n {
      GreedyPrefix(model, prompt, m, n - 1);
      assert Greedy(model, prompt, n)[..m] == Greedy(model, prompt, n - 1)[..m];
    }
  }

  /** From the `emitted`-th token on, the solo run publishes exactly the expected items. */
  lemma {:induction false} SoloIsExpected(
    model: Model, req: Request, cached: nat, history: seq<Token>, emitted: nat, input: seq<Token>)
    requires emitted < req.maxTokens
    requires history + input == req.prompt + Greedy(model, req.prompt, emitted)
    ensures var solo := Solo(model, req, cached, history, emitted, input);
      && solo != []
      && (forall k | 0 <= k < |solo| :: solo[k] == Expected(model, req, cached, emitted + k))
      && (forall k | 0 <= k < |solo| :: solo[k].Terminal() <==> k == |solo| - 1)
    decreases req.maxTokens - emitted
  {
    var token := model(history + input);
    assert Greedy(model, req.prompt, emitted + 1)[emitted] == token;
    var finish := FinishReason(req, token, emitted + 1);
    var solo := Solo(model, req, cached, history, emitted, input);
    if finish.None? {
      assert history + input + [token] == req.prompt + Greedy(model, req.prompt, emitted + 1);
      SoloIsExpected(model, req, cached, history + input, emitted + 1, [token]);
      var rest := Solo(model, req, cached, history + input, emitted + 1, [token]);
      forall k | 0 <= k < |solo|
        ensures solo[k] == Expected(model, req, cached, emitted + k)
        ensures solo[k].Terminal() <==> k == |solo| - 1
      {
        if k > 0 {
          assert solo[k] == rest[k - 1];
        }
      }
    }
  }

  /** A stream's outputs, with the worker's failure notice (if any) cut off. */
  function Outputs(sent: seq<Item>): seq<Item> {
    if sent != [] && sent[|sent| - 1].Failure? then sent[..|sent| - 1] else sent
  }

  /**
   Serving changes nothing: what a stream delivers is a prefix of what its
   request produces alone, and it is all of it exactly when the stream ends
   with a finish reason.
   */
  lemma {:induction false} DeliveredIsSolo(model: Model, req: Request, cached: nat, sent: seq<Item>)
    requires req.maxTokens > 0
    requires Delivered(model, req, cached, sent)
    ensures Outputs(sent) <= Alone(model, req, cached)
    ensures Outputs(sent) == Alone(model, req, cached) <==> Ended(sent) && sent[|sent| - 1].Output?
  {
    SoloIsExpected(model, req, cached, [], 0, req.prompt);
    var solo := Alone(model, req, cached);
    var outs := Outputs(sent);
    forall k | 0 <= k < |outs|
      ensures outs[k].Output?
    {
      if outs[k].Failure? {
        assert sent[k].Terminal();
      }
    }
    OutputsWithinSolo(model, req, cached, outs);
    if |outs| == |solo| {
      assert outs[|outs| - 1] == solo[|solo| - 1];
      assert outs[|outs| - 1].Terminal();
      assert sent == outs;
    }
  }

  lemma StopsAtTerminal(sent: seq<Item>, last: nat)
    requires forall k | 0 <= k < |sent| - 1 :: !sent[k].Terminal()
    requires last < |sent| ==> sent[last].Terminal()
    ensures |sent| <= last + 1
  {
  }

  lemma OutputsWithinSolo(model: Model, req: Request, cached: nat, outs: seq<Item>)
    requires req.maxTokens > 0
    requires Delivered(model, req, cached, outs)
    requires forall k | 0 <= k < |outs| :: outs[k].Output?
    ensures outs <= Alone(model, req, cached)
  {
    SoloIsExpected(model, req, cached, [], 0, req.prompt);
    var solo := Alone(model, req, cached);
    var last := |solo| - 1;
    assert solo[last] == Expected(model, req, cached, last);
    assert last < |outs| ==> outs[last] == Expected(model, req, cached, last);
    StopsAtTerminal(outs, last);
  }

  // ------------------------------------------------ where a stream ends, and why

  /** The token of item `k`. */
  function TokenAt(model: Model, req: Request, k: nat): Token {
    Greedy(model, req.prompt, k + 1)[k]
  }

  /** The token is the end token, one of the stop tokens, or the last one asked for. */
  predicate Stops(req: Request, token: Token, generated: nat) {
    req.eos == Some(token) || token in req.stopTokens || generated == req.maxTokens
  }

  /**
   What item `k` says: its token continues what came before, the prompt rides on the first item only, and the reason is
   the first that applies of end token, stop token and length.
   */
  ghost predicate Tells(model: Model, req: Request, cached: nat, k: nat, item: Item) {
    && item.Output? && item.cached == cached
    && item.token == model(req.prompt + Greedy(model, req.prompt, k))
    && (item.promptInfo == if k == 0 then Some(req.prompt) else None)
    && (item.finish.Some? <==> Stops(req, item.token, k + 1))
    && (item.finish == Some(StopEos) <==> req.eos == Some(item.token))
    && (item.finish.Some? && item.finish.value.StopToken? ==> item.finish.value.token == item.token)
    && (item.finish.Some? && item.finish.value.StopToken? <==>
          req.eos != Some(item.token) && item.token in req.stopTokens)
  }

  lemma ExpectedTells(model: Model, req: Request, cached: nat, k: nat)
    requires k < req.maxTokens
    ensures Tells(model, req, cached, k, Expected(model, req, cached, k))
  {
  }

  /** Main: the solo run ends at the first token that stops it, and every item says what it should. */
  lemma AloneEndsWhere(model: Model, req: Request, cached: nat)
    requires req.maxTokens > 0
    ensures var solo := Alone(model, req, cached);
      && 1 <= |solo| <= req.maxTokens
      && (forall k | 0 <= k < |solo| :: Tells(model, req, cached, k, solo[k]))
      && (forall k | 0 <= k < |solo| :: Stops(req, TokenAt(model, req, k), k + 1) <==> k == |solo| - 1)
  {
    SoloIsExpected(model, req, cached, [], 0, req.prompt);
    SoloLength(model, req, cached, [], 0, req.prompt);
    var solo := Alone(model, req, cached);
    forall k | 0 <= k < |solo|
      ensures Tells(model, req, cached, k, solo[k])
      ensures Stops(req, TokenAt(model, req, k), k + 1) <==> k == |solo| - 1
    {
      assert solo[k] == Expected(model, req, cached, k);
      ExpectedTells(model, req, cached, k);
      assert solo[k].Terminal() <==> k == |solo| - 1;
    }
  }

  lemma {:induction false} SoloLength(model: Model, req: Request, cached: nat, history: seq<Token>, emitted: nat,
                                      input: seq<Token>)
    requires emitted < req.maxTokens
    ensures |Solo(model, req, cached, history, emitted, input)| <= req.maxTokens - emitted
    decreases req.maxTokens - emitted
  {
    var token := model(history + input);
    if FinishReason(req, token, emitted + 1).None? {
      SoloLength(model, req, cached, history + input, emitted + 1, [token]);
    }
  }

  /** A stream that delivers its solo run's items ends with a reason exactly at the first token that stops it. */
  lemma DeliveredEndsWhere(model: Model, req: Request, cached: nat, sent: seq<Item>, k: nat)
    requires req.maxTokens > 0 && Delivered(model, req, cached, sent) && k < |sent| && sent[k].Output?
    ensures k < req.maxTokens && Tells(model, req, cached, k, sent[k])
    ensures forall j | 0 <= j < k :: !Stops(req, TokenAt(model, req, j), j + 1)
    ensures Stops(req, TokenAt(model, req, k), k + 1) <==> sent[k].Terminal()
  {
    DeliveredIsSolo(model, req, cached, sent);
    AloneEndsWhere(model, req, cached);
    var solo := Alone(model, req, cached);
    assert Outputs(sent)[k] == sent[k] && Outputs(sent)[k] == solo[k];
  }
}
