/** Arithmetic shared by every component: the source's float64 helpers over exact reals. */
module Numbers {
  function Min(a: real, b: real): real {
    if a <= b then a else b
  }

  function Max(a: real, b: real): real {
    if a >= b then a else b
  }

  /** clampFloat / clampRange: the lower bound is tested first, so it wins when lo > hi. */
  function Clamp(v: real, lo: real, hi: real): real {
    if v < lo then lo else if v > hi then hi else v
  }

  /** Go's int(x) conversion, which rounds toward zero. */
  function Truncate(x: real): int {
    if x >= 0.0 then x.Floor else -((-x).Floor)
  }

  function Ceiling(x: real): int {
    -((-x).Floor)
  }

  function Abs(x: real): real {
    if x < 0.0 then -x else x
  }

  function MaxInt(a: int, b: int): int {
    if a >= b then a else b
  }

  /** A product of two variable reals, named so that proofs can treat it as a unit. */
  function Scaled(x: real, factor: real): real {
    factor * x
  }

  lemma ScaledIsNonNegative(x: real, factor: real)
    requires x >= 0.0 && factor >= 0.0
    ensures Scaled(x, factor) >= 0.0
  {
  }

  lemma ScaledOfDifference(x: real, y: real, factor: real)
    ensures Scaled(x - y, factor) == Scaled(x, factor) - Scaled(y, factor)
  {
  }

  lemma ScaledByDifference(x: real, f: real, g: real)
    ensures Scaled(x, f - g) == Scaled(x, f) - Scaled(x, g)
  {
  }

  lemma ScaledTwice(x: real, f: real, g: real)
    ensures Scaled(Scaled(x, g), f) == Scaled(x, f * g)
  {
  }

  lemma ScaledByFraction(x: real, alpha: real)
    requires 0.0 <= alpha <= 1.0 && x >= 0.0
    ensures 0.0 <= Scaled(x, alpha) <= x
  {
    ScaledIsNonNegative(x, alpha);
    ScaledIsNonNegative(x, 1.0 - alpha);
    ScaledByDifference(x, 1.0, alpha);
  }

  lemma ScaledByShare(x: real, p: real)
    requires x > 0.0
    ensures p <= 0.0 <==> Scaled(x, p) <= 0.0
    ensures p <= 1.0 <==> Scaled(x, p) <= x
  {
    if p > 1.0 {
      assert (p - 1.0) * x > 0.0;
    } else {
      assert (1.0 - p) * x >= 0.0;
    }
  }
}
