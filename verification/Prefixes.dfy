/**
 How wide each prefill forward is, where prefix checkpoints fall, and why the
 history predicted before admission is the history the worker then executes.
 */
module Prefixes {
  import opened Arith

  /** Dimensions of the resident engine and of its prefix cache. */
  datatype Shape = Shape(
    prefillTokens: nat,    // widest compiled forward
    uncaptured: bool,      // any width up to `prefillTokens`, or only the compiled variants
    variants: seq<nat>,    // compiled widths, ascending
    batchCapacity: nat,    // zero selects the serial scheduler
    cached: bool,
    alignment: nat,
    budget: nat)           // the scheduler's per-tick token budget
  {
    ghost predicate Valid() {
      && prefillTokens >= 1 && alignment >= 1 && budget >= 1
      && batchCapacity <= prefillTokens
      && (forall i | 0 <= i < |variants| :: 1 <= variants[i] <= prefillTokens)
    }
  }

  /** The last variant not above `limit`, or single tokens when none fits. */
  function LargestFitting(variants: seq<nat>, limit: nat): nat {
    if variants == [] then 1
    else if variants[|variants| - 1] <= limit then variants[|variants| - 1]
    else LargestFitting(variants[..|variants| - 1], limit)
  }

  function PrefillChunk(e: Shape, limit: nat): nat {
    if e.uncaptured then Min(limit, e.prefillTokens) else LargestFitting(e.variants, limit)
  }

  lemma {:induction false} LargestFittingFits(variants: seq<nat>, limit: nat)
    requires limit >= 1
    requires forall i | 0 <= i < |variants| :: 1 <= variants[i]
    ensures 1 <= LargestFitting(variants, limit) <= limit
  {
    if variants != [] {
      LargestFittingFits(variants[..|variants| - 1], limit);
    }
  }

  /** A forward always makes progress and never overruns the limit it was given. */
  lemma ChunkFits(e: Shape, limit: nat)
    requires e.Valid() && limit >= 1
    ensures 1 <= PrefillChunk(e, limit) <= limit
  {
    LargestFittingFits(e.variants, limit);
  }

  function Gcd(a: nat, b: nat): (g: nat)
    requires a > 0 || b > 0
    ensures g > 0
    decreases b
  {
    if b == 0 then a else Gcd(b, a % b)
  }

  /** Bezout: the common divisor divides both arguments and is an integer combination of them. */
  lemma {:induction false} GcdCombination(a: nat, b: nat) returns (m: nat, n: nat, u: int, v: int)
    requires a > 0 || b > 0
    ensures a == m * Gcd(a, b) && b == n * Gcd(a, b)
    ensures u * m + v * n == 1
    decreases b
  {
    if b == 0 {
      m, n, u, v := 1, 0, 1, 0;
    } else {
      var m', n', u', v' := GcdCombination(b, a % b);
      var g, q := Gcd(b, a % b), a / b;
      DivMod(a, b);
      Assoc(q, m', g);
      Distribute(q * m', n', g);
      MulPos(q, m');
      // u' * m' + v' * n' == 1 with a == (q * m' + n') * g and b == m' * g
      m, n, u, v := q * m' + n', m', v', u' - v' * q;
      Distribute(u', -(v' * q), m');
      Assoc(v', q, m');
      assert v' * (q * m' + n') == v' * (q * m') + v' * n';
    }
  }

  function AlignedChunk(alignment: nat, chunk: nat): nat
    requires alignment > 0 && chunk > 0
  {
    alignment / Gcd(alignment, chunk) * chunk
  }

  /** Every common multiple of `alignment` and `chunk` is a multiple of `AlignedChunk`, which is one. */
  lemma AlignedChunkIsLcm(alignment: nat, chunk: nat, x: nat)
    requires alignment > 0 && chunk > 0
    ensures AlignedChunk(alignment, chunk) > 0
    ensures x % alignment == 0 && x % chunk == 0 <==> x % AlignedChunk(alignment, chunk) == 0
  {
    var a, c, u, v := GcdCombination(alignment, chunk);
    var g := Gcd(alignment, chunk);
    MultipleMod(a, g);
    if a == 0 || c == 0 { assert false; }
    MulMono(1, a, chunk);
    var l := AlignedChunk(alignment, chunk);
    assert l == a * chunk;
    Assoc(a, c, g);
    Assoc(c, a, g);
    assert l == c * alignment;
    if x % alignment == 0 && x % chunk == 0 {
      CommonMultiple(x, alignment, chunk, a, c, u, v, l);
    }
    if x % l == 0 {
      DivMod(x, l);
      Assoc(x / l, a, chunk);
      Assoc(x / l, c, alignment);
      MultipleMod(x / l * a, chunk);
      MultipleMod(x / l * c, alignment);
    }
  }

  /** With `u * a + v * c == 1`, a common multiple of both is a combination of multiples of `l`. */
  lemma CommonMultiple(x: nat, alignment: nat, chunk: nat, a: nat, c: nat, u: int, v: int, l: nat)
    requires alignment > 0 && chunk > 0 && l > 0
    requires x % alignment == 0 && x % chunk == 0
    requires u * a + v * c == 1 && l == a * chunk == c * alignment
    ensures x % l == 0
  {
    var s, t := x / alignment, x / chunk;
    DivMod(x, alignment);
    DivMod(x, chunk);
    calc {
      x;
      (u * a + v * c) * x;
      { Distribute(u * a, v * c, x); }
      (u * a) * (t * chunk) + (v * c) * (s * alignment);
      { Regroup(u, a, t, chunk); Regroup(v, c, s, alignment); }
      (u * t) * l + (v * s) * l;
      { Distribute(u * t, v * s, l); }
      (u * t + v * s) * l;
    }
    MultipleMod(u * t + v * s, l);
  }

  lemma Regroup(p: int, q: int, r: int, s: int)
    ensures (p * q) * (r * s) == (p * r) * (q * s)
  {
    Assoc(p * q, r, s);
    Assoc(p, q, r);
    Assoc(p, r, q);
    Assoc(p * r, q, s);
  }

  /** The checkpoint boundary of a prompt when forwards are not graph-captured. */
  function UncapturedBoundary(tokens: nat, alignment: nat, chunk: nat): nat
    requires alignment > 0 && chunk > 0
  {
    AlignedChunkIsLcm(alignment, chunk, 0);
    (if tokens == 0 then 0 else tokens - 1) / AlignedChunk(alignment, chunk) * AlignedChunk(alignment, chunk)
  }

  const WORD := 0x1_0000_0000
  const LONG := 0x1_0000_0000_0000_0000

  lemma QuotientShrinks(x: nat, d: nat)
    requires d > 0
    ensures 0 <= x / d <= x
  {
    DivMod(x, d);
    if x / d < 0 {
      MulMono(x / d, -1, d);
    }
    if x / d > 0 {
      MulMono(1, d, x / d);
    }
  }

  /** A product of two 32-bit numbers fits 64 bits. */
  lemma NarrowProduct(x: nat, bound: nat, y: nat)
    requires x <= bound < WORD && y < WORD
    ensures 0 <= x * y < LONG
  {
    MulPos(x, y);
    MulMono(x, WORD - 1, y);
    MulMono(y, WORD - 1, WORD - 1);
  }

  lemma BoundaryFits(tokens: nat, alignment: nat, chunk: nat)
    requires 0 < alignment < WORD && 0 < chunk < WORD && tokens < WORD
    ensures AlignedChunk(alignment, chunk) == alignment / Gcd(alignment, chunk) * chunk
    ensures 0 < AlignedChunk(alignment, chunk) < LONG && UncapturedBoundary(tokens, alignment, chunk) < WORD
  {
    hide Gcd;
    AlignedChunkIsLcm(alignment, chunk, 0);
    var g := Gcd(alignment, chunk);
    QuotientShrinks(alignment, g);
    NarrowProduct(alignment / g, alignment, chunk);
    DivMod(if tokens == 0 then 0 else tokens - 1, AlignedChunk(alignment, chunk));
  }

  /** The loop that computes it: every product and the result stay within the host's integers. */
  method ComputeUncapturedBoundary(tokens: nat, alignment: nat, chunk: nat) returns (boundary: nat)
    requires 0 < alignment < WORD && 0 < chunk < WORD && tokens < WORD
    ensures boundary == UncapturedBoundary(tokens, alignment, chunk)
    ensures 0 < AlignedChunk(alignment, chunk) < LONG && boundary < WORD
  {
    var a: nat, b: nat := alignment, chunk;
    while b != 0
      invariant (a > 0 || b > 0) && Gcd(a, b) == Gcd(alignment, chunk)
      decreases b
    {
      a, b := b, a % b;
    }
    BoundaryFits(tokens, alignment, chunk);
    hide AlignedChunk;
    var alignedChunk := alignment / a * chunk;
    boundary := (if tokens == 0 then 0 else tokens - 1) / alignedChunk * alignedChunk;
  }

  /** It is the greatest common multiple of alignment and chunk below the prompt length. */
  lemma BoundaryIsGreatest(tokens: nat, alignment: nat, chunk: nat)
    requires tokens > 0 && alignment > 0 && chunk > 0
    ensures var b := UncapturedBoundary(tokens, alignment, chunk);
      && b < tokens && b % alignment == 0 && b % chunk == 0
      && (forall x: nat {:trigger x % alignment, x % chunk} | b < x < tokens ::
            !(x % alignment == 0 && x % chunk == 0))
  {
    var l := AlignedChunk(alignment, chunk);
    var b := UncapturedBoundary(tokens, alignment, chunk);
    AlignedChunkIsLcm(alignment, chunk, b);
    var k := (tokens - 1) / l;
    MultipleMod(k, l);
    DivMod(tokens - 1, l);
    Distribute(k, 1, l);
    forall x: nat | b < x < tokens
      ensures !(x % alignment == 0 && x % chunk == 0)
    {
      AlignedChunkIsLcm(alignment, chunk, x);
      if x % l == 0 {
        DivMod(x, l);
        if x / l <= k {
          MulMono(x / l, k, l);
        } else {
          MulMono(k + 1, x / l, l);
        }
      }
    }
  }

  /** Stopping at a boundary that is a multiple of the chunk costs no extra forward. */
  lemma CheckpointCostsNoForward(tokens: nat, boundary: nat, chunk: nat)
    requires chunk > 0 && boundary <= tokens && boundary % chunk == 0
    ensures boundary / chunk + CeilDiv(tokens - boundary, chunk) == CeilDiv(tokens, chunk)
  {
    var k := boundary / chunk;
    var rest := tokens - boundary + chunk - 1;
    DivMod(boundary, chunk);
    DivMod(rest, chunk);
    Distribute(k, rest / chunk, chunk);
    DivUnique(tokens + chunk - 1, chunk, k + rest / chunk, rest % chunk);
  }

  /** The prompt position at which a prefix checkpoint is published. */
  function Boundary(e: Shape, tokens: nat): nat
    requires e.alignment >= 1 && e.prefillTokens >= 1 && e.budget >= 1
  {
    if e.uncaptured then UncapturedBoundary(tokens, e.alignment, FullChunk(e))
    else (if tokens == 0 then 0 else tokens - 1) / e.alignment * e.alignment
  }

  /** In both modes it is the last place below the prompt's end that alignment, and the full chunk, allow. */
  lemma BoundaryIs(e: Shape, tokens: nat)
    requires e.Valid() && tokens > 0
    ensures Boundary(e, tokens) < tokens && AtBoundary(e, Boundary(e, tokens))
    ensures forall x: nat | Boundary(e, tokens) < x < tokens :: !AtBoundary(e, x)
  {
    if e.uncaptured {
      BoundaryIsGreatest(tokens, e.alignment, FullChunk(e));
    } else {
      LastMultiple(tokens - 1, e.alignment);
    }
  }

  lemma LastMultiple(last: nat, alignment: nat)
    requires alignment > 0
    ensures var b := last / alignment * alignment;
      && 0 <= b <= last && b % alignment == 0 && forall x: nat | b < x <= last :: x % alignment != 0
  {
    var k := last / alignment;
    var b := k * alignment;
    DivMod(last, alignment);
    QuotientShrinks(last, alignment);
    MultipleMod(k, alignment);
    MulPos(k, alignment);
    forall x: nat | b < x <= last && x % alignment == 0 ensures false {
      MultiplesApart(b, x, alignment);
    }
  }

  predicate AtBoundary(e: Shape, x: nat)
    requires e.alignment >= 1 && e.prefillTokens >= 1 && e.budget >= 1
  {
    x % e.alignment == 0 && (e.uncaptured ==> x % Min(e.prefillTokens, e.budget) == 0)
  }

  function FullChunk(e: Shape): nat {
    Min(e.prefillTokens, e.budget)
  }

  /** How far the next prefill of a resident may reach without jumping over the boundary. */
  function PrefillLimit(e: Shape, position: nat, prompt: nat): nat
    requires e.alignment >= 1 && e.prefillTokens >= 1 && e.budget >= 1
    requires position <= prompt
  {
    if e.cached && position < Boundary(e, prompt) then Boundary(e, prompt) - position
    else prompt - position
  }

  /** The scheduler's two boundary tests never fire: the limit lies within the prompt and is positive. */
  lemma LimitFits(e: Shape, position: nat, prompt: nat)
    requires e.Valid() && position < prompt
    ensures Boundary(e, prompt) < prompt
    ensures 1 <= PrefillLimit(e, position, prompt) <= prompt - position
  {
    if e.uncaptured {
      BoundaryIsGreatest(prompt, e.alignment, FullChunk(e));
    } else {
      DivMod(prompt - 1, e.alignment);
    }
  }

  /** Width of a serial prefill when `left` of the tick's token budget remains. */
  function SerialWidth(e: Shape, position: nat, prompt: nat, left: nat): nat
    requires e.Valid() && position <= prompt
  {
    PrefillChunk(e, Min(left, PrefillLimit(e, position, prompt)))
  }

  /** The full quantum a resident could use; uncaptured prefill waits until that much budget is left. */
  function Quantum(e: Shape, position: nat, prompt: nat): nat
    requires position <= prompt
  {
    PrefillChunk(e, Min(prompt - position, e.budget))
  }

  predicate Deferred(e: Shape, position: nat, prompt: nat, left: nat)
    requires position <= prompt
  {
    e.uncaptured && Quantum(e, position, prompt) > left
  }

  function BatchBudget(e: Shape): nat {
    Min(e.budget, e.batchCapacity)
  }

  function BatchWidth(e: Shape, position: nat, prompt: nat): nat
    requires e.Valid() && position <= prompt
  {
    PrefillChunk(e, Min(PrefillLimit(e, position, prompt), BatchBudget(e)))
  }

  /** What restore_prefix expects a cold prompt to execute, as (position, width) pairs. */
  function Forecast(e: Shape, at: nat, boundary: nat): seq<(nat, nat)>
    requires e.Valid() && at <= boundary
    decreases boundary - at
  {
    if at == boundary then []
    else
      var width := PrefillChunk(e, Min(boundary - at, e.budget));
      ChunkFits(e, Min(boundary - at, e.budget));
      [(at, width)] + Forecast(e, at + width, boundary)
  }

  /** The prospective history loop. */
  method PredictHistory(e: Shape, prompt: nat) returns (spans: seq<(nat, nat)>)
    requires e.Valid() && prompt > 0
    ensures spans == Forecast(e, 0, Boundary(e, prompt))
  {
    var boundary := Boundary(e, prompt);
    var tokens := 0;
    spans := [];
    while tokens < boundary
      invariant 0 <= tokens <= boundary
      invariant spans + Forecast(e, tokens, boundary) == Forecast(e, 0, boundary)
    {
      ChunkFits(e, Min(boundary - tokens, e.budget));
      var count := PrefillChunk(e, Min(boundary - tokens, e.budget));
      assert Forecast(e, tokens, boundary) == [(tokens, count)] + Forecast(e, tokens + count, boundary);
      spans := spans + [(tokens, count)];
      tokens := tokens + count;
    }
  }

  /** One prefill forward of the worker at `at`; `left` matters to the serial scheduler only. */
  ghost predicate Executes(e: Shape, prompt: nat, at: nat, left: nat, width: nat)
    requires e.Valid() && at < prompt
  {
    if e.batchCapacity > 0 then width == BatchWidth(e, at, prompt)
    else 1 <= left <= e.budget && !Deferred(e, at, prompt, left) && width == SerialWidth(e, at, prompt, left)
  }

  /** One forward of a resident at `at`: a prefill as above, or a decode of one token. */
  ghost predicate Forward(e: Shape, prompt: nat, at: nat, width: nat)
    requires e.Valid()
  {
    if at < prompt then exists left :: Executes(e, prompt, at, left, width) else width == 1
  }

  /** Any sequence of prefill forwards of one resident, whatever its peers left of each tick's budget. */
  ghost predicate Execution(e: Shape, prompt: nat, at: nat, lefts: seq<nat>, steps: seq<(nat, nat)>)
    requires e.Valid()
    decreases |steps|
  {
    && |lefts| == |steps|
    && (steps != [] ==>
          && at < prompt
          && steps[0].0 == at
          && Executes(e, prompt, at, lefts[0], steps[0].1)
          && Execution(e, prompt, at + steps[0].1, lefts[1..], steps[1..]))
  }

  /** The batch scheduler can hold a full chunk, or is not used. */
  ghost predicate FullChunksFit(e: Shape) {
    e.batchCapacity == 0 || e.batchCapacity >= FullChunk(e)
  }

  /** Peers never fragment an uncaptured prefill: its width depends on its own position alone. */
  lemma WidthIgnoresPeers(e: Shape, prompt: nat, at: nat, left: nat, width: nat)
    requires e.Valid() && e.uncaptured && FullChunksFit(e) && at < prompt
    requires Executes(e, prompt, at, left, width)
    ensures width == Min(PrefillLimit(e, at, prompt), FullChunk(e))
  {
    LimitFits(e, at, prompt);
  }

  /** A forward of this width exists: any up to the capacity, or a compiled one. */
  predicate Compiled(e: Shape, width: nat) {
    if e.uncaptured then 1 <= width <= e.prefillTokens else width in e.variants
  }

  /** A forward of this width stays within its share of tokens and the prompt, and does not jump over the boundary. */
  ghost predicate InReach(e: Shape, prompt: nat, at: nat, share: nat, width: nat)
    requires e.Valid()
  {
    && width <= share && at + width <= prompt
    && (e.cached && at < Boundary(e, prompt) ==> at + width <= Boundary(e, prompt))
  }

  lemma {:induction false} LargestFittingIs(variants: seq<nat>, limit: nat)
    requires forall i, j | 0 <= i < j < |variants| :: variants[i] <= variants[j]
    ensures var n := LargestFitting(variants, limit);
      && (forall v | v in variants && v <= limit :: v <= n)
      && ((n in variants && n <= limit) || (n == 1 && forall v | v in variants :: v > limit))
  {
    if variants != [] {
      var last := |variants| - 1;
      forall v | v in variants ensures v in variants[..last] || v == variants[last] {
        assert variants == variants[..last] + [variants[last]];
      }
      if variants[last] > limit {
        LargestFittingIs(variants[..last], limit);
      }
    }
  }

  lemma ChunkIs(e: Shape, limit: nat)
    requires e.Valid() && limit >= 1 && forall i, j | 0 <= i < j < |e.variants| :: e.variants[i] <= e.variants[j]
    ensures var n := PrefillChunk(e, limit);
      && (forall v: nat | Compiled(e, v) && v <= limit :: v <= n)
      && ((Compiled(e, n) && n <= limit) || (n == 1 && forall v: nat | Compiled(e, v) :: v > limit))
  {
    if e.uncaptured {
      assert Compiled(e, Min(limit, e.prefillTokens));
    } else {
      LargestFittingIs(e.variants, limit);
    }
  }

  /**
   Main: every prefill forward is the widest there is that stays within its share, the prompt and the boundary; where
   no compiled width does, it is a single token.
   */
  lemma WidthIsWidest(e: Shape, prompt: nat, at: nat, left: nat, width: nat)
    requires e.Valid() && at < prompt && Executes(e, prompt, at, left, width)
    requires forall i, j | 0 <= i < j < |e.variants| :: e.variants[i] <= e.variants[j]
    ensures var share := if e.batchCapacity == 0 then left else Min(e.budget, e.batchCapacity);
      && InReach(e, prompt, at, share, width) && width >= 1
      && (forall w: nat | Compiled(e, w) && InReach(e, prompt, at, share, w) :: w <= width)
      && (Compiled(e, width) ||
          (width == 1 && forall w: nat | Compiled(e, w) :: !InReach(e, prompt, at, share, w)))
  {
    hide PrefillChunk, Boundary, Compiled;
    LimitFits(e, at, prompt);
    var share := if e.batchCapacity == 0 then left else Min(e.budget, e.batchCapacity);
    var limit := Min(share, PrefillLimit(e, at, prompt));
    ChunkFits(e, limit);
    ChunkIs(e, limit);
  }

  /** Below the boundary the next forward is the forecast's. */
  lemma ForecastStep(e: Shape, prompt: nat, at: nat, left: nat, width: nat)
    requires e.Valid() && e.uncaptured && e.cached && FullChunksFit(e)
    requires prompt > 0 && at < Boundary(e, prompt) && at < prompt && Executes(e, prompt, at, left, width)
    ensures at + width <= Boundary(e, prompt)
    ensures Forecast(e, at, Boundary(e, prompt)) == [(at, width)] + Forecast(e, at + width, Boundary(e, prompt))
  {
    LimitFits(e, at, prompt);
    WidthIgnoresPeers(e, prompt, at, left, width);
  }

  /**
   The history predicted before admission is the history executed after it:
   a cold run of any length agrees with the forecast, and a run that gets past
   the boundary has stopped exactly on it.
   */
  lemma {:induction false} ForecastIsExecuted(e: Shape, prompt: nat, at: nat, lefts: seq<nat>, steps: seq<(nat, nat)>)
    requires e.Valid() && e.uncaptured && e.cached && FullChunksFit(e)
    requires prompt > 0 && at <= Boundary(e, prompt)
    requires Execution(e, prompt, at, lefts, steps)
    ensures var forecast := Forecast(e, at, Boundary(e, prompt));
      steps <= forecast || forecast <= steps
    decreases |steps|
  {
    var boundary := Boundary(e, prompt);
    if at < boundary && steps != [] {
      hide Executes, PrefillLimit, Boundary;
      ForecastStep(e, prompt, at, lefts[0], steps[0].1);
      ForecastIsExecuted(e, prompt, at + steps[0].1, lefts[1..], steps[1..]);
      assert steps == [steps[0]] + steps[1..];
    }
  }

  /** A whole cold prefill takes as many forwards as it would without a checkpoint. */
  lemma {:induction false} ForwardCount(e: Shape, prompt: nat, at: nat, lefts: seq<nat>, steps: seq<(nat, nat)>)
    requires e.Valid() && e.uncaptured && e.cached && FullChunksFit(e) && prompt > 0
    requires at <= prompt && Execution(e, prompt, at, lefts, steps)
    requires End(at, steps) == prompt
    requires at % FullChunk(e) == 0 || at == prompt
    ensures |steps| == CeilDiv(prompt, FullChunk(e)) - CeilDiv(at, FullChunk(e))
    decreases |steps|
  {
    var chunk := FullChunk(e);
    if steps != [] {
      var width := steps[0].1;
      LimitFits(e, at, prompt);
      BoundaryIsGreatest(prompt, e.alignment, chunk);
      WidthIgnoresPeers(e, prompt, at, lefts[0], width);
      var boundary := Boundary(e, prompt);
      if at < boundary {
        MultiplesApart(at, boundary, chunk);
      }
      assert width == chunk || at + width == prompt;
      ForwardCount(e, prompt, at + width, lefts[1..], steps[1..]) by {
        NextMultiple(at, chunk);
      }
      NextMultiple(at, chunk);
      CeilStep(at, width, chunk);
    }
  }

  function End(at: nat, steps: seq<(nat, nat)>): nat
    decreases |steps|
  {
    if steps == [] then at else End(at + steps[0].1, steps[1..])
  }

  lemma MultiplesApart(a: nat, b: nat, chunk: nat)
    requires chunk > 0 && a < b && a % chunk == 0 && b % chunk == 0
    ensures b - a >= chunk
  {
    DivMod(a, chunk);
    DivMod(b, chunk);
    if b / chunk <= a / chunk {
      MulMono(b / chunk, a / chunk, chunk);
    } else {
      Distribute(a / chunk, 1, chunk);
      MulMono(a / chunk + 1, b / chunk, chunk);
    }
  }

  lemma NextMultiple(a: nat, chunk: nat)
    requires chunk > 0 && a % chunk == 0
    ensures (a + chunk) % chunk == 0
  {
    DivMod(a, chunk);
    Distribute(a / chunk, 1, chunk);
    MultipleMod(a / chunk + 1, chunk);
  }

  /** From a multiple of the chunk, any positive step within the chunk raises the ceiling by one. */
  lemma CeilStep(a: nat, width: nat, chunk: nat)
    requires chunk > 0 && a % chunk == 0 && 1 <= width <= chunk
    ensures CeilDiv(a + width, chunk) == CeilDiv(a, chunk) + 1
  {
    DivMod(a, chunk);
    Distribute(a / chunk, 1, chunk);
    DivUnique(a + chunk - 1, chunk, a / chunk, chunk - 1);
    DivUnique(a + width + chunk - 1, chunk, a / chunk + 1, width - 1);
  }

  /** Every cold execution of the prompt agrees with the forecast as far as the boundary. */
  ghost predicate ForecastHolds(e: Shape, prompt: nat)
    requires e.Valid() && prompt > 0
  {
    LimitFits(e, 0, prompt);
    forall lefts, steps | Execution(e, prompt, 0, lefts, steps) :: Agrees(e, prompt, steps)
  }

  ghost predicate Agrees(e: Shape, prompt: nat, steps: seq<(nat, nat)>)
    requires e.Valid() && prompt > 0
  {
    var forecast := Forecast(e, 0, Boundary(e, prompt));
    steps <= forecast || forecast <= steps
  }

  /**
   The batched scheduler meets the forecast only when a batch can hold a full
   chunk: with less, even the first forward of a prompt that has a boundary differs.
   */
  lemma ForecastHoldsIff(e: Shape, prompt: nat)
    requires e.Valid() && e.uncaptured && e.cached && prompt > 0 && Boundary(e, prompt) > 0
    ensures FullChunksFit(e) <==> ForecastHolds(e, prompt)
  {
    if FullChunksFit(e) {
      forall lefts, steps | Execution(e, prompt, 0, lefts, steps)
        ensures Agrees(e, prompt, steps)
      {
        ForecastIsExecuted(e, prompt, 0, lefts, steps);
      }
    } else {
      NarrowBatchDisagrees(e, prompt);
    }
  }

  lemma NarrowBatchDisagrees(e: Shape, prompt: nat)
    requires e.Valid() && e.uncaptured && e.cached && prompt > 0 && Boundary(e, prompt) > 0
    requires !FullChunksFit(e)
    ensures !ForecastHolds(e, prompt)
  {
    NarrowFirstForward(e, prompt);
    var lefts, steps := [0], [(0, e.batchCapacity)];
    OneStep(e, prompt, lefts, steps);
    DifferentHeads(steps, Forecast(e, 0, Boundary(e, prompt)));
    assert !Agrees(e, prompt, steps);
  }

  lemma OneStep(e: Shape, prompt: nat, lefts: seq<nat>, steps: seq<(nat, nat)>)
    requires e.Valid() && prompt > 0 && |lefts| == |steps| == 1
    requires steps[0].0 == 0 && Executes(e, prompt, 0, lefts[0], steps[0].1)
    ensures Execution(e, prompt, 0, lefts, steps)
  {
    assert Execution(e, prompt, steps[0].1, lefts[1..], steps[1..]);
  }

  lemma NarrowFirstForward(e: Shape, prompt: nat)
    requires e.Valid() && e.uncaptured && e.cached && prompt > 0 && Boundary(e, prompt) > 0
    requires !FullChunksFit(e)
    ensures BatchWidth(e, 0, prompt) == e.batchCapacity
    ensures var forecast := Forecast(e, 0, Boundary(e, prompt));
      forecast != [] && forecast[0] == (0, FullChunk(e)) && e.batchCapacity < FullChunk(e)
  {
    BoundaryIsGreatest(prompt, e.alignment, FullChunk(e));
    MultiplesApart(0, Boundary(e, prompt), FullChunk(e));
    var rest := Forecast(e, FullChunk(e), Boundary(e, prompt));
    assert Forecast(e, 0, Boundary(e, prompt)) == [(0, FullChunk(e))] + rest;
  }

  lemma DifferentHeads(a: seq<(nat, nat)>, b: seq<(nat, nat)>)
    requires a != [] && b != [] && a[0] != b[0]
    ensures !(a <= b) && !(b <= a)
  {
  }
}
