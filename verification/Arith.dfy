/** Products, quotients and remainders with a symbolic divisor. */
module Arith {

  lemma MulPos(x: int, y: int)
    requires x >= 0 && y >= 0
    ensures x * y >= 0
  {
  }

  lemma Distribute(x: int, y: int, l: int)
    ensures (x + y) * l == x * l + y * l
  {
  }

  lemma Assoc(x: int, y: int, z: int)
    ensures x * (y * z) == (x * y) * z
  {
  }

  lemma MulMono(x: int, y: int, l: int)
    requires x <= y && l >= 0
    ensures x * l <= y * l
  {
    if x < y {
      MulPos(y - x, l);
      Distribute(y, -x, l);
    }
  }

  lemma NoGap(d: int, k: int, e: int)
    requires d > 0 && k * d == e && -d < e < d
    ensures k == 0 && e == 0
  {
    if k > 0 {
      MulMono(1, k, d);
    }
    if k < 0 {
      MulMono(k, -1, d);
    }
  }

  lemma DivMod(x: int, d: int)
    requires d > 0
    ensures x == (x / d) * d + x % d && 0 <= x % d < d
  {
  }

  /** Division is determined by its defining equation. */
  lemma DivUnique(x: int, d: int, q: int, r: int)
    requires d > 0 && 0 <= r < d && x == q * d + r
    ensures x / d == q && x % d == r
  {
    DivMod(x, d);
    Distribute(q, -(x / d), d);
    NoGap(d, q - x / d, x % d - r);
  }

  lemma MultipleMod(k: int, g: int)
    requires g > 0
    ensures (k * g) % g == 0 && (k * g) / g == k
  {
    DivUnique(k * g, g, k, 0);
  }

  lemma Cancel(x: int, y: int, g: int)
    requires g > 0 && x * g == y * g
    ensures x == y
  {
    MultipleMod(x, g);
    MultipleMod(y, g);
  }

  function Min(a: nat, b: nat): nat {
    if a <= b then a else b
  }

  function CeilDiv(a: nat, b: nat): nat
    requires b > 0
  {
    (a + b - 1) / b
  }
}
