/**
 * The scale-factor computation: from a design size in dp along one axis
 * and the device baseline, the density, densityDpi and scaledDensity that
 * make the design fill that axis.  Java's `float` arithmetic is modelled
 * over `real`; its `(int)` narrowing cast is written out.
 */
module ScaleFactors {
  import opened DensityConfig

  const INT_MIN: int := -0x8000_0000
  const INT_MAX: int := 0x7fff_ffff

  /** The platform's reference dots-per-inch for one dp (`DisplayMetrics.DENSITY_DEFAULT`) */
  const DENSITY_DEFAULT: real := 160.0

  /** The three display-metrics fields the engine sets */
  datatype DisplayMetricsInfo = DisplayMetricsInfo(density: real, densityDpi: int, scaledDensity: real)

  /** `t` is `x` rounded toward zero */
  predicate IsTruncation(t: int, x: real) {
    if x >= 0.0 then t as real <= x < t as real + 1.0 else t as real - 1.0 < x <= t as real
  }

  /** Every real inside the int range has a truncation inside the int range */
  lemma TruncationExists(x: real)
    requires INT_MIN as real - 1.0 < x < INT_MAX as real + 1.0
    ensures exists t :: INT_MIN <= t <= INT_MAX && IsTruncation(t, x)
  {
    var t := if x >= 0.0 then x.Floor else -((-x).Floor);
    assert IsTruncation(t, x);
  }

  /** Java's `(int)` cast of a finite float: round toward zero, saturate at the int range */
  function IntCast(x: real): (n: int)
    ensures INT_MIN <= n <= INT_MAX
    ensures INT_MIN as real - 1.0 < x < INT_MAX as real + 1.0 ==> IsTruncation(n, x)
    ensures x >= INT_MAX as real + 1.0 ==> n == INT_MAX
    ensures x <= INT_MIN as real - 1.0 ==> n == INT_MIN
  {
    if x >= INT_MAX as real + 1.0 then INT_MAX
    else if x <= INT_MIN as real - 1.0 then INT_MIN
    else
      TruncationExists(x);
      var t :| INT_MIN <= t <= INT_MAX && IsTruncation(t, x);
      t
  }

  /** `q` times `b` is `a` */
  predicate IsQuotient(q: real, a: real, b: real) {
    q * b == a
  }

  /** Division by a non-zero real, given by the property that defines it */
  function Quotient(a: real, b: real): (q: real)
    requires b != 0.0
    ensures IsQuotient(q, a, b)
  {
    assert IsQuotient(a / b, a, b);
    var q :| IsQuotient(q, a, b);
    q
  }

  /**
   * The triple computed on a cache miss: `sizeInDp` design units fill the
   * screen along the basis axis, and the font-scale ratio of the baseline
   * is preserved.
   */
  function Compute(cfg: Config, sizeInDp: real, isBaseOnWidth: bool): (r: DisplayMetricsInfo)
    requires sizeInDp != 0.0 && cfg.initDensity != 0.0
    ensures r.density * sizeInDp == ScreenSize(cfg, isBaseOnWidth) as real
    ensures r.scaledDensity * cfg.initDensity == r.density * cfg.initScaledDensity
    ensures r.densityDpi == IntCast(r.density * DENSITY_DEFAULT)
  {
    var density := Quotient(ScreenSize(cfg, isBaseOnWidth) as real, sizeInDp);
    DisplayMetricsInfo(density, IntCast(density * DENSITY_DEFAULT), density * Quotient(cfg.initScaledDensity, cfg.initDensity))
  }

  /** The relations in `Compute`'s contract determine the triple: any triple meeting them is `Compute`'s */
  lemma ComputeIsDetermined(cfg: Config, sizeInDp: real, isBaseOnWidth: bool, m: DisplayMetricsInfo)
    requires sizeInDp != 0.0 && cfg.initDensity != 0.0
    requires m.density * sizeInDp == ScreenSize(cfg, isBaseOnWidth) as real
    requires m.scaledDensity * cfg.initDensity == m.density * cfg.initScaledDensity
    requires m.densityDpi == IntCast(m.density * DENSITY_DEFAULT)
    ensures m == Compute(cfg, sizeInDp, isBaseOnWidth)
  {
    var r := Compute(cfg, sizeInDp, isBaseOnWidth);
    assert m.density == r.density by {
      CancelFactor(m.density, r.density, sizeInDp, ScreenSize(cfg, isBaseOnWidth) as real);
    }
    assert m.scaledDensity == r.scaledDensity by {
      CancelFactor(m.scaledDensity, r.scaledDensity, cfg.initDensity, m.density * cfg.initScaledDensity);
    }
    assert m.densityDpi == r.densityDpi;
  }

  /** A non-zero factor cancels on both sides of an equation */
  lemma CancelFactor(x: real, y: real, d: real, c: real)
    requires d != 0.0 && x * d == c && y * d == c
    ensures x == y
  {
    assert (x - y) * d == 0.0;
  }

  /**
   * With a non-negative screen size densityDpi is non-negative, and while
   * `density * 160` stays inside the int range it is that value truncated.
   */
  lemma DensityDpiIsTruncation(cfg: Config, sizeInDp: real, isBaseOnWidth: bool)
    requires sizeInDp > 0.0 && cfg.initDensity != 0.0
    requires ScreenSize(cfg, isBaseOnWidth) >= 0
    ensures var r := Compute(cfg, sizeInDp, isBaseOnWidth);
      && 0 <= r.densityDpi
      && (r.density * DENSITY_DEFAULT < INT_MAX as real + 1.0 ==>
            r.densityDpi as real <= r.density * DENSITY_DEFAULT < r.densityDpi as real + 1.0)
  {
  }

  /** The headline example: a 1080-pixel-wide screen designed at 360dp wide on a 2.0 baseline */
  lemma WidthExample()
    ensures var cfg := Config(2.0, 320, 2.0, 1080, 1920, false, true, 360.0, 640.0);
      Compute(cfg, 360.0, true) == DisplayMetricsInfo(3.0, 480, 3.0)
  {
  }
}
