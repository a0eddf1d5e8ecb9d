/**
 * The stateless transforms of src/services/distribuciones.ts, over `real`.
 * `exponencial` (a logarithm) is not computed here: the engine receives it as
 * a function value and assumes only `ExponencialNoNegativa` of it.
 */
module Distribuciones {

  function Min(a: real, b: real): real { if a <= b then a else b }

  function Max(a: real, b: real): real { if a >= b then a else b }

  /** `uniforme(rnd, min, max)`: maps a draw onto the interval between `min` and `max`. */
  function Uniforme(rnd: real, min: real, max: real): (r: real)
    ensures 0.0 <= rnd <= 1.0 && min <= max ==> min <= r <= max
  {
    ProductoAcotado(rnd, max - min);
    min + rnd * (max - min)
  }

  lemma ProductoAcotado(t: real, d: real)
    ensures 0.0 <= t <= 1.0 && 0.0 <= d ==> 0.0 <= t * d <= d
  {
    if 0.0 <= t <= 1.0 && 0.0 <= d {
      assert (1.0 - t) * d >= 0.0;
    }
  }

  /** `limites(resultado, min, max)`: `Math.min(Math.max(resultado, min), max)`. */
  function Limites(resultado: real, min: real, max: real): (r: real)
    ensures min <= max ==> min <= r <= max
    ensures min <= resultado <= max ==> r == resultado
    ensures r <= max
  {
    Min(Max(resultado, min), max)
  }

  /** The end points of the unit interval map to the end points of the target interval. */
  lemma UniformeExtremos(min: real, max: real)
    ensures Uniforme(0.0, min, max) == min
    ensures Uniforme(1.0, min, max) == max
  {
  }

  /** A larger draw never gives a smaller value when `min <= max`. */
  lemma UniformeMonotona(r1: real, r2: real, min: real, max: real)
    requires r1 <= r2 && min <= max
    ensures Uniforme(r1, min, max) <= Uniforme(r2, min, max)
  {
    var d := max - min;
    ProductoNoNegativo(r2 - r1, d);
    assert r2 * d - r1 * d == (r2 - r1) * d;
  }

  lemma ProductoNoNegativo(a: real, b: real)
    requires 0.0 <= a && 0.0 <= b
    ensures 0.0 <= a * b
  {
  }

  /** Clamping twice is clamping once, whatever the bounds. */
  lemma LimitesIdempotente(x: real, min: real, max: real)
    ensures Limites(Limites(x, min, max), min, max) == Limites(x, min, max)
  {
  }

  /**
   * What the engine assumes of `exponencial(rnd, media) = -media * ln(1 - rnd)`:
   * for a draw in [0,1) and a positive mean the result is not negative.
   */
  ghost predicate ExponencialNoNegativa(exponencial: (real, real) -> real)
  {
    forall rnd, media :: 0.0 <= rnd < 1.0 && 0.0 < media ==> exponencial(rnd, media) >= 0.0
  }
}
