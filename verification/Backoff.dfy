/** Exponential backoff with equal jitter (src/common/backoff/backoff.ts), in
    exact arithmetic; the random draw is a parameter in [0, 1). */
module Backoff {

  /** Number.MAX_SAFE_INTEGER, the cap when the caller gives none. */
  const MAX_SAFE_INTEGER: nat := 9007199254740991

  function Pow2(n: nat): nat { if n == 0 then 1 else 2 * Pow2(n - 1) }

  function Min(a: nat, b: nat): nat { if a <= b then a else b }

  /** min(cap, base * 2^max(0, attempt - 1)) */
  function Ceiling(attempt: int, base: nat, cap: nat): nat {
    Min(cap, base * Pow2(if attempt <= 1 then 0 else attempt - 1))
  }

  function Jitter(ceiling: nat, draw: real): int {
    var half := ceiling as real / 2.0;
    (half + draw * half).Floor
  }

  function BackoffWithJitter(attempt: int, base: nat, cap: nat, draw: real): int {
    Jitter(Ceiling(attempt, base, cap), draw)
  }

  lemma ScaledDraw(draw: real, half: real)
    requires 0.0 <= draw < 1.0 && 0.0 <= half
    ensures 0.0 <= draw * half <= half
    ensures 0.0 < half ==> draw * half < half
  {
  }

  lemma FloorBounds(half: real, share: real, e: nat)
    requires half + half == e as real && 0.0 <= share <= half && (0.0 < half ==> share < half)
    ensures 0 <= e / 2 <= (half + share).Floor <= e && (0 < e ==> (half + share).Floor < e)
  {
    var wait := half + share;
    assert wait.Floor as real <= wait < wait.Floor as real + 1.0;
    assert (e / 2) as real <= half;
  }

  lemma JitterBounds(e: nat, draw: real)
    requires 0.0 <= draw < 1.0
    ensures 0 <= e / 2 <= Jitter(e, draw) <= e && (0 < e ==> Jitter(e, draw) < e)
  {
    var half := e as real / 2.0;
    assert half + half == e as real;
    ScaledDraw(draw, half);
    FloorBounds(half, draw * half, e);
  }

  /** The delay is at least half the ceiling, never reaches a positive ceiling
      and is never negative. */
  lemma DelayBounds(attempt: int, base: nat, cap: nat, draw: real)
    requires 0.0 <= draw < 1.0
    ensures var e := Ceiling(attempt, base, cap); var delay := BackoffWithJitter(attempt, base, cap, draw);
            0 <= e / 2 <= delay <= e && (0 < e ==> delay < e)
  {
    JitterBounds(Ceiling(attempt, base, cap), draw);
  }

  /** The draw spreads the delay evenly over the upper half of the ceiling. */
  lemma DelayFollowsDraw(attempt: int, base: nat, cap: nat, draw: real)
    ensures BackoffWithJitter(attempt, base, cap, draw)
            == ((1.0 + draw) * (Ceiling(attempt, base, cap) as real / 2.0)).Floor
  {
    OnePlus(draw, Ceiling(attempt, base, cap) as real / 2.0);
  }

  lemma OnePlus(draw: real, half: real)
    ensures (1.0 + draw) * half == half + draw * half
  {
  }

  /** Both ends of the range are reached, so the bounds are tight. */
  lemma DelayBoundsTight(attempt: int, base: nat, cap: nat)
    requires 0 < Ceiling(attempt, base, cap)
    ensures BackoffWithJitter(attempt, base, cap, 0.0) == Ceiling(attempt, base, cap) / 2
    ensures exists draw :: 0.0 <= draw < 1.0 &&
              BackoffWithJitter(attempt, base, cap, draw) == Ceiling(attempt, base, cap) - 1
  {
    var e := Ceiling(attempt, base, cap);
    var half := e as real / 2.0;
    assert 0.0 * half == 0.0;
    assert (e / 2) as real <= half < (e / 2) as real + 1.0;
    if e == 1 {
      assert BackoffWithJitter(attempt, base, cap, 0.0) == 0;
    } else {
      var draw := (half - 1.0) / half;
      assert draw * half == half - 1.0;
      assert 0.0 <= draw < 1.0;
      assert half + draw * half == (e - 1) as real;
      assert BackoffWithJitter(attempt, base, cap, draw) == e - 1;
    }
  }

  lemma Pow2Monotone(m: nat, n: nat)
    requires m <= n
    ensures 1 <= Pow2(m) <= Pow2(n)
    decreases n
  {
    if m < n { Pow2Monotone(m, n - 1); } else if n > 0 { Pow2Monotone(0, n - 1); }
  }

  /** The ceiling starts at the base and doubles with every attempt until it meets
      the cap. */
  lemma CeilingDoubles(base: nat, cap: nat, n: nat)
    ensures Ceiling(1, base, cap) == if cap <= base then cap else base
    ensures forall a: int :: a <= 1 ==> Ceiling(a, base, cap) == Ceiling(1, base, cap)
    ensures n >= 1 ==> Ceiling(n + 1, base, cap) ==
                       if cap <= 2 * Ceiling(n, base, cap) then cap else 2 * Ceiling(n, base, cap)
  {
    if n >= 1 {
      assert base * Pow2(n) == 2 * (base * Pow2(n - 1)) by { Twice(base, Pow2(n - 1)); }
    }
  }

  lemma Twice(base: nat, p: nat)
    ensures base * (2 * p) == 2 * (base * p)
  {
  }

  /** The wait after this many failures lies between half of and all of the base
      doubled that often, or of the cap. */
  predicate RetryWindow(base: nat, cap: nat, earlier: nat, wait: int) {
    var e := if cap <= base * Pow2(earlier) then cap else base * Pow2(earlier);
    e / 2 <= wait <= e
  }

  lemma DelayInWindow(earlier: nat, base: nat, cap: nat, draw: real)
    requires 0.0 <= draw < 1.0
    ensures RetryWindow(base, cap, earlier, BackoffWithJitter(earlier + 1, base, cap, draw))
  {
    DelayBounds(earlier + 1, base, cap, draw);
  }

  lemma CeilingMonotone(a: int, b: int, base: nat, cap: nat)
    requires a <= b
    ensures Ceiling(a, base, cap) <= Ceiling(b, base, cap) <= cap
  {
    var m, n := if a <= 1 then 0 else a - 1, if b <= 1 then 0 else b - 1;
    Pow2Monotone(m, n);
    Scale(base, Pow2(m), Pow2(n));
  }

  lemma Scale(base: nat, x: nat, y: nat)
    requires x <= y
    ensures base * x <= base * y
  {
  }

  // ---- The wait of one outbox message before it is abandoned ----

  function HalfCeilings(base: nat, cap: nat, n: nat): nat {
    if n == 0 then 0 else HalfCeilings(base, cap, n - 1) + Ceiling(n, base, cap) / 2
  }

  /** The half ceilings in closed form, as long as the cap is not reached. */
  lemma {:induction false} HalfCeilingsClosed(base: nat, cap: nat, n: nat)
    requires n >= 1 && base * Pow2(n - 1) <= cap
    ensures HalfCeilings(base, cap, n) == base / 2 + base * (Pow2(n - 1) - 1)
  {
    if n == 1 {
    } else {
      Twice(base, Pow2(n - 2));
      HalfCeilingsClosed(base, cap, n - 1);
      assert Ceiling(n, base, cap) / 2 == base * Pow2(n - 2);
      Doubled(base, Pow2(n - 2));
    }
  }

  /** What n delays in a row add up to. */
  predicate WaitBounds(base: nat, cap: nat, n: nat, waited: int) {
    HalfCeilings(base, cap, n) <= waited <= base * (Pow2(n) - 1)
  }

  lemma Doubled(base: nat, p: nat)
    ensures base * (p - 1) + base * p == base * (2 * p - 1)
  {
  }

  /** The delay after one more failure keeps the sum within its bounds: at least
      the half ceilings, at most base * (2^n - 1). */
  lemma OneMoreDelay(base: nat, cap: nat, n: nat, waited: int, draw: real)
    requires 0.0 <= draw < 1.0 && WaitBounds(base, cap, n, waited)
    ensures WaitBounds(base, cap, n + 1, waited + BackoffWithJitter(n + 1, base, cap, draw))
  {
    DelayBounds(n + 1, base, cap, draw);
    Doubled(base, Pow2(n));
  }
}
