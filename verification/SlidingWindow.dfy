/**
 Page-aligned retention for windowed attention: a fixed set of recycled pages
 that, over every run, reads like a cache that never forgets.
 */
module SlidingWindow {
  import opened Arith
  import opened Requests

  const UINT32_MAX := 0xffff_ffff

  datatype Layout = Layout(context: nat, window: nat, chunk: nat, pageTokens: nat, physicalPages: nat)

  /** Pages that `retained` consecutive tokens can touch, counting a straddled one. */
  function Straddle(retained: nat, pageTokens: nat): nat
    requires retained > 0 && pageTokens > 0
  {
    (retained + pageTokens - 2) / pageTokens + 1
  }

  /** The constructor, on unsigned 32-bit arguments; None stands for its exceptions. */
  function Make(context: nat, window: nat, chunk: nat, pageTokens: nat): Option<Layout> {
    if context == 0 || window == 0 || chunk == 0 || pageTokens == 0 || chunk > context then None
    else
      var pages := Min(Straddle(window + chunk - 1, pageTokens), CeilDiv(context, pageTokens));
      if pages * pageTokens > UINT32_MAX then None
      else Some(Layout(context, window, chunk, pageTokens, pages))
  }

  /** The constructor as it runs: each argument is checked, then the product against 32 bits. */
  method Create(context: nat, window: nat, chunk: nat, pageTokens: nat) returns (l: Option<Layout>)
    ensures l == Make(context, window, chunk, pageTokens)
  {
    if context == 0 || window == 0 || chunk == 0 || pageTokens == 0 || chunk > context {
      return None;
    }
    var retained := window + chunk - 1;
    var straddled := (retained + pageTokens - 2) / pageTokens + 1;
    var whole := (context + pageTokens - 1) / pageTokens;
    var pages := if straddled < whole then straddled else whole;
    if pages * pageTokens > 0xffff_ffff {
      return None;
    }
    DivNonNegative(retained + pageTokens - 2, pageTokens);
    DivNonNegative(context + pageTokens - 1, pageTokens);
    return Some(Layout(context, window, chunk, pageTokens, pages));
  }

  ghost predicate Legal(l: Layout) {
    Make(l.context, l.window, l.chunk, l.pageTokens) == Some(l)
  }

  function TableEntries(l: Layout): nat
    requires l.pageTokens > 0
  {
    CeilDiv(l.context, l.pageTokens)
  }

  function PhysicalPage(l: Layout, logical: nat): Option<nat>
    requires l.pageTokens > 0 && l.physicalPages > 0
  {
    if logical >= TableEntries(l) then None else Some(logical % l.physicalPages)
  }

  /** The cell of an absolute position. */
  function Append(l: Layout, position: nat): Option<nat>
    requires l.pageTokens > 0 && l.physicalPages > 0
  {
    if position >= l.context then None
    else match PhysicalPage(l, position / l.pageTokens)
      case None => None
      case Some(page) => Some(page * l.pageTokens + position % l.pageTokens)
  }

  lemma LegalPositive(l: Layout)
    requires Legal(l)
    ensures l.pageTokens > 0 && l.physicalPages > 0 && 0 < l.chunk <= l.context && l.window > 0
    ensures l.physicalPages * l.pageTokens <= UINT32_MAX
  {
    DivMod(l.window + l.chunk - 1 + l.pageTokens - 2, l.pageTokens);
    CeilPositive(l.context, l.pageTokens);
    DivNonNegative(l.window + l.chunk + l.pageTokens - 3, l.pageTokens);
  }

  lemma DivNonNegative(x: int, d: int)
    requires x >= 0 && d > 0
    ensures x / d >= 0
  {
    DivMod(x, d);
    if x / d < 0 {
      MulMono(x / d, -1, d);
    }
  }

  lemma Positive(x: int, d: int, q: int)
    requires x > 0 && d > 0 && x <= q * d
    ensures q >= 1
  {
    if q < 1 {
      MulMono(q, 0, d);
    }
  }

  lemma CeilPositive(x: nat, d: nat)
    requires x > 0 && d > 0
    ensures CeilDiv(x, d) >= 1
    ensures (CeilDiv(x, d) - 1) * d < x <= CeilDiv(x, d) * d
  {
    var q := (x + d - 1) / d;
    DivMod(x + d - 1, d);
    Distribute(q, -1, d);
    DivNonNegative(x + d - 1, d);
    Positive(x, d, q);
  }

  lemma PageInTable(l: Layout, position: nat)
    requires l.pageTokens > 0 && position < l.context
    ensures position / l.pageTokens < TableEntries(l)
  {
    CeilPositive(l.context, l.pageTokens);
    DivMod(position, l.pageTokens);
    if position / l.pageTokens >= TableEntries(l) {
      MulMono(TableEntries(l), position / l.pageTokens, l.pageTokens);
    }
    DivNonNegative(position, l.pageTokens);
  }

  /** Every position of the context has a cell, inside the recycled storage. */
  lemma AppendInBounds(l: Layout, position: nat)
    requires Legal(l) && position < l.context
    ensures l.pageTokens > 0 && l.physicalPages > 0
    ensures Append(l, position).Some? && Append(l, position).value < l.physicalPages * l.pageTokens
  {
    LegalPositive(l);
    PageInTable(l, position);
    var page := position / l.pageTokens % l.physicalPages;
    DivNonNegative(position, l.pageTokens);
    DivMod(position / l.pageTokens, l.physicalPages);
    DivMod(position, l.pageTokens);
    MulMono(page + 1, l.physicalPages, l.pageTokens);
    Distribute(page, 1, l.pageTokens);
    MulPos(page, l.pageTokens);
  }

  /** Positions of the context have a cell, and no others. */
  lemma AppendIff(l: Layout, position: nat)
    requires Legal(l) && l.pageTokens > 0 && l.physicalPages > 0
    ensures Append(l, position).Some? <==> position < l.context
  {
    if position < l.context {
      AppendInBounds(l, position);
    }
  }

  /** A logical page has a physical one if and only if some position of the context lies on it. */
  lemma PhysicalPageIff(l: Layout, logical: nat)
    requires Legal(l) && l.pageTokens > 0 && l.physicalPages > 0
    ensures PhysicalPage(l, logical).Some? <==> exists position: nat | position < l.context ::
      position / l.pageTokens == logical
  {
    if PhysicalPage(l, logical).Some? {
      CeilPositive(l.context, l.pageTokens);
      MulPos(logical, l.pageTokens);
      MulMono(logical, TableEntries(l) - 1, l.pageTokens);
      DivUnique(logical * l.pageTokens, l.pageTokens, logical, 0);
    } else if position: nat :| position < l.context && position / l.pageTokens == logical {
      PageInTable(l, position);
    }
  }

  /** Two tokens less than `retained` apart lie fewer than `Straddle(retained)` pages apart. */
  lemma PageDistance(a: nat, b: nat, retained: nat, pageTokens: nat)
    requires pageTokens > 0 && a <= b < a + retained
    ensures 0 <= b / pageTokens - a / pageTokens < Straddle(retained, pageTokens)
  {
    var p, d := pageTokens, b / pageTokens - a / pageTokens;
    DivMod(a, p);
    DivMod(b, p);
    Distribute(b / p, -(a / p), p);
    if d < 0 {
      MulMono(d, -1, p);
    }
    // d * p == (b - b % p) - (a - a % p) <= retained - 1 + p - 1
    DivMod(retained + p - 2, p);
    var q := (retained + p - 2) / p;
    if d > q {
      MulMono(q + 1, d, p);
      Distribute(q, 1, p);
    }
  }

  /** Residues of numbers less than `n` apart coincide only for equal numbers. */
  lemma ResiduesApart(a: nat, b: nat, n: nat)
    requires n > 0 && a <= b < a + n && a % n == b % n
    ensures a == b
  {
    DivMod(a, n);
    DivMod(b, n);
    Distribute(b / n, -(a / n), n);
    NoGap(n, b / n - a / n, b - a);
  }

  /**
   No recycled page is needed twice inside a window plus chunk: distinct logical
   pages of `window + chunk - 1` consecutive positions have distinct physical pages.
   */
  lemma PagesDistinct(l: Layout, a: nat, b: nat)
    requires Legal(l) && a <= b < a + l.window + l.chunk - 1 && b < l.context
    ensures l.pageTokens > 0 && l.physicalPages > 0
    ensures a / l.pageTokens % l.physicalPages == b / l.pageTokens % l.physicalPages
      ==> a / l.pageTokens == b / l.pageTokens
  {
    LegalPositive(l);
    PageDistance(a, b, l.window + l.chunk - 1, l.pageTokens);
    PageInTable(l, b);
    DivNonNegative(a, l.pageTokens);
    if a / l.pageTokens % l.physicalPages == b / l.pageTokens % l.physicalPages {
      ResiduesApart(a / l.pageTokens, b / l.pageTokens, l.physicalPages);
    }
  }

  /** Hence `append` is injective on any such stretch. */
  lemma AppendInjective(l: Layout, a: nat, b: nat)
    requires Legal(l) && a < b < a + l.window + l.chunk - 1 && b < l.context
    ensures l.pageTokens > 0 && l.physicalPages > 0 && Append(l, a) != Append(l, b)
  {
    LegalPositive(l);
    AppendInBounds(l, a);
    AppendInBounds(l, b);
    if Append(l, a) == Append(l, b) {
      var p := l.pageTokens;
      DivMod(a, p);
      DivMod(b, p);
      DivUnique(Append(l, a).value, p, a / p % l.physicalPages, a % p);
      DivUnique(Append(l, b).value, p, b / p % l.physicalPages, b % p);
      PagesDistinct(l, a, b);
    }
  }

  /** `n` recycled pages serve a window plus chunk anywhere in the context. */
  ghost predicate Suffice(n: nat, context: nat, retained: nat, pageTokens: nat)
    requires n > 0 && pageTokens > 0
  {
    forall a: nat, b: nat {:trigger a / pageTokens, b / pageTokens} | a <= b < a + retained && b < context ::
      a / pageTokens % n == b / pageTokens % n ==> a / pageTokens == b / pageTokens
  }

  /** The page count is exactly what is needed: that many pages suffice, fewer do not. */
  lemma PageCountIsExact(l: Layout, n: nat)
    requires Legal(l) && n > 0
    ensures l.pageTokens > 0
    ensures Suffice(n, l.context, l.window + l.chunk - 1, l.pageTokens) <==> n >= l.physicalPages
  {
    LegalPositive(l);
    var p, retained := l.pageTokens, l.window + l.chunk - 1;
    if n >= l.physicalPages {
      forall a: nat, b: nat | a <= b < a + retained && b < l.context && a / p % n == b / p % n
        ensures a / p == b / p
      {
        PageDistance(a, b, retained, p);
        PageInTable(l, b);
        DivNonNegative(a, p);
        ResiduesApart(a / p, b / p, n);
      }
    } else {
      FewerPagesCollide(l, n);
    }
  }

  lemma FewerPagesCollide(l: Layout, n: nat)
    requires Legal(l) && 0 < n < l.physicalPages && l.pageTokens > 0
    ensures !Suffice(n, l.context, l.window + l.chunk - 1, l.pageTokens)
  {
    var p, retained := l.pageTokens, l.window + l.chunk - 1;
    var a, b := p - 1, n * p;
    MulMono(1, n, p);
    // b - a == n * p - p + 1 <= retained - 1, because n <= Straddle - 1
    DivMod(retained + p - 2, p);
    MulMono(n, (retained + p - 2) / p, p);
    // b < context, because n <= CeilDiv(context, p) - 1
    CeilPositive(l.context, p);
    MulMono(n, CeilDiv(l.context, p) - 1, p);
    DivUnique(a, p, 0, p - 1);
    DivUnique(b, p, n, 0);
    DivUnique(n, n, 1, 0);
    DivUnique(0, n, 0, 0);
    assert a / p % n == b / p % n && a / p != b / p;
  }

  // ---------------------------------------------------------------- runs

  /** Write consecutive positions from `at` on; each write lands on a recycled cell. */
  function Write<V>(l: Layout, cells: map<nat, V>, at: nat, values: seq<V>): map<nat, V>
    requires l.pageTokens > 0 && l.physicalPages > 0 && at + |values| <= l.context
  {
    if values == [] then cells
    else
      var before := Write(l, cells, at, values[..|values| - 1]);
      var cell := Append(l, at + |values| - 1);
      if cell.Some? then before[cell.value := values[|values| - 1]] else before
  }

  /** The recycled cells hold the last `window + chunk - 1` values ever written. */
  ghost predicate Holds<V>(l: Layout, cells: map<nat, V>, history: seq<V>)
    requires l.pageTokens > 0 && l.physicalPages > 0
  {
    && |history| <= l.context
    && (forall j | 0 <= j < |history| && |history| < j + l.window + l.chunk :: Reads(l, cells, j, history[j]))
  }

  ghost predicate Reads<V>(l: Layout, cells: map<nat, V>, position: nat, value: V)
    requires l.pageTokens > 0 && l.physicalPages > 0
  {
    Append(l, position).Some? && Append(l, position).value in cells && cells[Append(l, position).value] == value
  }

  lemma {:induction false} WriteHolds<V>(l: Layout, cells: map<nat, V>, history: seq<V>, values: seq<V>)
    requires Legal(l) && l.pageTokens > 0 && l.physicalPages > 0
    requires Holds(l, cells, history) && |history| + |values| <= l.context
    ensures Holds(l, Write(l, cells, |history|, values), history + values)
    decreases |values|
  {
    if values == [] {
      assert history + values == history;
    } else {
      var n := |values| - 1;
      WriteHolds(l, cells, history, values[..n]);
      var before, all := Write(l, cells, |history|, values[..n]), history + values;
      assert all[..|all| - 1] == history + values[..n];
      AppendInBounds(l, |all| - 1);
      forall j | 0 <= j < |all| && |all| < j + l.window + l.chunk
        ensures Reads(l, Write(l, cells, |history|, values), j, all[j])
      {
        if j < |all| - 1 {
          assert Reads(l, before, j, (history + values[..n])[j]);
          AppendInjective(l, j, |all| - 1);
        }
      }
    }
  }

  /** A run: chunk after chunk, each written before its queries are answered. */
  function Run<V>(l: Layout, chunks: seq<seq<V>>): map<nat, V>
    requires l.pageTokens > 0 && l.physicalPages > 0 && |Flat(chunks)| <= l.context
  {
    if chunks == [] then map[]
    else
      Write(l, Run(l, chunks[..|chunks| - 1]), |Flat(chunks[..|chunks| - 1])|, chunks[|chunks| - 1])
  }

  /** The unbounded cache: everything ever written, in order. */
  function Flat<V>(chunks: seq<seq<V>>): seq<V> {
    if chunks == [] then [] else Flat(chunks[..|chunks| - 1]) + chunks[|chunks| - 1]
  }

  lemma {:induction false} RunHolds<V>(l: Layout, chunks: seq<seq<V>>)
    requires Legal(l) && l.pageTokens > 0 && l.physicalPages > 0 && |Flat(chunks)| <= l.context
    ensures Holds(l, Run(l, chunks), Flat(chunks))
    decreases |chunks|
  {
    if chunks != [] {
      RunHolds(l, chunks[..|chunks| - 1]);
      WriteHolds(l, Run(l, chunks[..|chunks| - 1]), Flat(chunks[..|chunks| - 1]), chunks[|chunks| - 1]);
    }
  }

  /**
   The ring is as good as an unbounded cache: after any run of chunks of legal
   width, every query of the last chunk reads, at every position of its causal
   window, the value that was written for that position.
   */
  lemma RingRefinesUnbounded<V>(l: Layout, chunks: seq<seq<V>>, query: nat, j: nat)
    requires Legal(l) && l.pageTokens > 0 && l.physicalPages > 0 && |Flat(chunks)| <= l.context
    requires chunks != [] && |chunks[|chunks| - 1]| <= l.chunk
    requires |Flat(chunks)| - |chunks[|chunks| - 1]| <= query < |Flat(chunks)|
    requires j <= query < j + l.window
    ensures Reads(l, Run(l, chunks), j, Flat(chunks)[j])
  {
    RunHolds(l, chunks);
  }
}
