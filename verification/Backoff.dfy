/** The reconnect delay of the RPC client, over reals instead of IEEE doubles. */
module Backoff {

  /** Math.round: the nearest integer, halves rounded up. */
  function Round(x: real): int {
    (x + 0.5).Floor
  }

  function Min(a: int, b: int): int {
    if a < b then a else b
  }

  function Pow2(n: nat): (r: nat)
    ensures r > 0
  {
    if n == 0 then 1 else 2 * Pow2(n - 1)
  }

  /** base * 2 ** min(attempt - 1, 7) */
  function Exponential(base: nat, attempt: nat): nat
    requires attempt >= 1
  {
    base * Pow2(Min(attempt - 1, 7))
  }

  /** exponential * (0.75 + random * 0.5) */
  function Spread(exponential: real, jitter: real): real {
    exponential * (0.75 + jitter * 0.5)
  }

  function Delay(base: nat, cap: nat, attempt: nat, jitter: real): int
    requires attempt >= 1
  {
    Min(cap, Round(Spread(Exponential(base, attempt) as real, jitter)))
  }

  ghost predicate Draw(jitter: real) {
    0.0 <= jitter < 1.0
  }

  lemma ProductNonNegative(x: real, y: real)
    requires 0.0 <= x && 0.0 <= y
    ensures 0.0 <= x * y
  {
  }

  lemma SpreadBand(e: real, jitter: real)
    requires 0.0 <= e && Draw(jitter)
    ensures 0.75 * e <= Spread(e, jitter) <= 1.25 * e
  {
    ProductNonNegative(e, jitter * 0.5);
    ProductNonNegative(e, 0.5 - jitter * 0.5);
  }

  lemma CappedBand(cap: nat, e: real, x: real)
    requires 0.0 <= e && 0.75 * e <= x <= 1.25 * e
    ensures 0 <= Min(cap, Round(x)) <= cap
    ensures var d := Min(cap, Round(x)) as real; d <= 1.25 * e + 0.5 && (d == cap as real || 0.75 * e - 0.5 < d)
  {
  }

  lemma RoundIsMonotone(x: real, y: real)
    requires x <= y
    ensures Round(x) <= Round(y)
  {
  }

  /** Every delay respects the cap and, up to rounding, the 75% to 125% band around the exponential. */
  lemma DelayBand(base: nat, cap: nat, attempt: nat, jitter: real)
    requires attempt >= 1 && Draw(jitter)
    ensures 0 <= Delay(base, cap, attempt, jitter) <= cap
    ensures var e := Exponential(base, attempt) as real; var d := Delay(base, cap, attempt, jitter) as real;
            d <= 1.25 * e + 0.5 && (d == cap as real || 0.75 * e - 0.5 < d)
  {
    var e := Exponential(base, attempt) as real;
    SpreadBand(e, jitter);
    CappedBand(cap, e, Spread(e, jitter));
  }

  /** No pair of draws makes attempt + 1 wait less than attempt. */
  ghost predicate NeverShortens(base: nat, cap: nat, attempt: nat)
    requires attempt >= 1
  {
    forall r: real, s: real :: Draw(r) && Draw(s) ==> Delay(base, cap, attempt, r) <= Delay(base, cap, attempt + 1, s)
  }

  /** Delays are monotone exactly while the exponent grows; from the eighth attempt on only a zero
      base or a cap below the smallest draw keeps them so. */
  lemma DelayNeverShortensExactlyWhen(base: nat, cap: nat, attempt: nat)
    requires attempt >= 1
    ensures NeverShortens(base, cap, attempt) <==> attempt < 8 || base == 0 || cap <= 96 * base
  {
    if attempt < 8 {
      assert Pow2(attempt) == 2 * Pow2(attempt - 1);
      Doubled(base, attempt);
      forall r: real, s: real | Draw(r) && Draw(s)
        ensures Delay(base, cap, attempt, r) <= Delay(base, cap, attempt + 1, s)
      {
        GrowingStep(cap, Exponential(base, attempt), r, s);
      }
    } else {
      assert Pow2(7) == 128 by { assert Pow2(3) == 8; assert Pow2(5) == 32; }
      forall r: real, s: real | Draw(r) && Draw(s)
        ensures Delay(base, cap, attempt, r) == Flat(base, cap, r)
        ensures Delay(base, cap, attempt + 1, s) == Flat(base, cap, s)
        ensures base == 0 || cap <= 96 * base ==> Flat(base, cap, r) <= Flat(base, cap, s)
      {
        if base == 0 || cap <= 96 * base {
          FlatFloor(base, cap, r);
          FlatFloor(base, cap, s);
        }
      }
      if base > 0 && cap > 96 * base {
        FlatDrop(base, cap);
        assert Delay(base, cap, attempt, 0.5) > Delay(base, cap, attempt + 1, 0.0);
      }
    }
  }

  lemma Doubled(base: nat, attempt: nat)
    requires 1 <= attempt < 8
    ensures Exponential(base, attempt + 1) == 2 * Exponential(base, attempt)
  {
    var p := Pow2(attempt - 1);
    assert Pow2(attempt) == 2 * p;
    assert base * (2 * p) == 2 * (base * p);
  }

  lemma GrowingStep(cap: nat, n: nat, r: real, s: real)
    requires Draw(r) && Draw(s)
    ensures Min(cap, Round(Spread(n as real, r))) <= Min(cap, Round(Spread((2 * n) as real, s)))
  {
    SpreadBand(n as real, r);
    SpreadBand((2 * n) as real, s);
    RoundIsMonotone(Spread(n as real, r), Spread((2 * n) as real, s));
  }

  /** The delay of the eighth and every later attempt. */
  function Flat(base: nat, cap: nat, jitter: real): int {
    Min(cap, Round(Spread((base * 128) as real, jitter)))
  }

  lemma FlatFloor(base: nat, cap: nat, r: real)
    requires Draw(r) && (base == 0 || cap <= 96 * base)
    ensures Flat(base, cap, r) == if base == 0 then 0 else cap
  {
    SpreadBand((base * 128) as real, r);
    RoundIsMonotone((96 * base) as real, Spread((base * 128) as real, r));
  }

  lemma FlatDrop(base: nat, cap: nat)
    requires base > 0 && cap > 96 * base
    ensures Draw(0.5) && Draw(0.0) && Flat(base, cap, 0.5) > Flat(base, cap, 0.0)
  {
    assert Spread((base * 128) as real, 0.5) == (base * 128) as real;
    assert Spread((base * 128) as real, 0.0) == (base * 96) as real;
  }
}
