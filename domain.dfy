/** Shared value objects of the trading core: agents, items, and the
    numeric helpers both engines use (JavaScript's Math.max/Math.min on
    two numbers and the one-decimal rounding Math.round(x * 10) / 10). */
module Domain {

  datatype Option<+T> = None | Some(value: T)

  /** Math.max(a, b) for finite numbers. */
  function MaxR(a: real, b: real): (r: real)
    ensures r >= a && r >= b && (r == a || r == b)
  {
    if a >= b then a else b
  }

  /** Math.min(a, b) for finite numbers. */
  function MinR(a: real, b: real): (r: real)
    ensures r <= a && r <= b && (r == a || r == b)
  {
    if a <= b then a else b
  }

  /** Math.round(x * 10) / 10: Math.round rounds halves towards +infinity,
      which is floor(y + 1/2). The result is the nearest multiple of 0.1,
      at most 0.05 below and less than 0.05 above x. */
  function Round1(x: real): (r: real)
    ensures x - 1.0 / 20.0 < r <= x + 1.0 / 20.0
    ensures OneDecimal(r)
  {
    var k := (x * 10.0 + 0.5).Floor;
    assert (k as real / 10.0) * 10.0 == k as real;
    k as real / 10.0
  }

  /** x carries at most one decimal place: x * 10 is an integer. */
  predicate OneDecimal(x: real) {
    (x * 10.0).Floor as real == x * 10.0
  }

  /** Rounding to one decimal never reverses the order of two prices. */
  lemma Round1Monotone(x: real, y: real)
    requires x <= y
    ensures Round1(x) <= Round1(y)
  {
    var kx := (x * 10.0 + 0.5).Floor;
    var ky := (y * 10.0 + 0.5).Floor;
    assert kx as real <= x * 10.0 + 0.5 <= y * 10.0 + 0.5 < ky as real + 1.0;
    assert kx <= ky;
  }

  /** A positive amount scaled by a draw u in [0, 1) stays in [0, amount). */
  lemma ScaleByDraw(c: real, u: real)
    ensures c > 0.0 && 0.0 <= u < 1.0 ==> 0.0 <= c * u < c
  {
  }

  /** The product of two non-negative numbers is non-negative. */
  lemma MulNonNegative(a: real, b: real)
    requires a >= 0.0 && b >= 0.0
    ensures a * b >= 0.0
  {
  }

  /** Scaling by a non-negative factor keeps the order. */
  lemma MulMonotone(c: real, a: real, b: real)
    requires c >= 0.0 && a <= b
    ensures c * a <= c * b
  {
    MulNonNegative(c, b - a);
  }

  /** r is s with some elements deleted: every element of r comes from s,
      in the order s has them. */
  ghost predicate IsSubsequence<T>(r: seq<T>, s: seq<T>)
    decreases |s|
  {
    if |r| == 0 then true
    else if |s| == 0 then false
    else (r[|r| - 1] == s[|s| - 1] && IsSubsequence(r[..|r| - 1], s[..|s| - 1]))
         || IsSubsequence(r, s[..|s| - 1])
  }

  /** The customisation sliders of an agent (aggressiveness, patience,
      flexibility, risk tolerance), read by the auction engine. */
  datatype Traits = Traits(aggressiveness: int, patience: int, flexibility: int, riskTolerance: int)

  /** An agent as the engines see it: identity, display name, wallet
      balance and traits. Avatar, strategy text and statistics are
      presentation-only. */
  datatype Agent = Agent(id: string, name: string, balance: real, customization: Traits)

  /** A tradeable item: its reference price and its current market price. */
  datatype Item = Item(id: string, name: string, basePrice: real, currentPrice: real)
}
