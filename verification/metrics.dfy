/**
 * The platform display-metrics structures the engine writes to, as plain
 * records.  Only the three density fields are ever assigned; the rest
 * stand for every other field of `DisplayMetrics`, which must survive.
 */
module Metrics {
  import opened Wrappers
  import opened ScaleFactors

  datatype DisplayMetrics = DisplayMetrics(
    density: real,
    densityDpi: int,
    scaledDensity: real,
    widthPixels: int,
    heightPixels: int,
    xdpi: real,
    ydpi: real)

  /**
   * The display metrics reachable from one `Resources` object: its own,
   * and the hidden `mTmpMetrics` field that the MIUI patch finds on
   * `MiuiResources` and `XResources` (None when the patch finds nothing).
   */
  datatype Resources = Resources(displayMetrics: DisplayMetrics, tmpMetrics: Option<DisplayMetrics>)

  /** `dm` carries exactly the three values of `info` */
  predicate Shows(dm: DisplayMetrics, info: DisplayMetricsInfo) {
    dm.density == info.density && dm.densityDpi == info.densityDpi && dm.scaledDensity == info.scaledDensity
  }

  /** `a` and `b` agree on every field other than the three density fields */
  predicate SameLayout(a: DisplayMetrics, b: DisplayMetrics) {
    a.widthPixels == b.widthPixels && a.heightPixels == b.heightPixels && a.xdpi == b.xdpi && a.ydpi == b.ydpi
  }

  /** Assigns the three density fields of one display-metrics structure */
  function SetDensity(dm: DisplayMetrics, density: real, densityDpi: int, scaledDensity: real): (r: DisplayMetrics)
    ensures Shows(r, DisplayMetricsInfo(density, densityDpi, scaledDensity))
    ensures SameLayout(r, dm)
  {
    dm.(density := density, densityDpi := densityDpi, scaledDensity := scaledDensity)
  }

  /** A later assignment overrides an earlier one completely */
  lemma SetDensityLastWins(dm: DisplayMetrics, first: DisplayMetricsInfo, second: DisplayMetricsInfo)
    ensures var once := SetDensity(dm, second.density, second.densityDpi, second.scaledDensity);
      SetDensity(SetDensity(dm, first.density, first.densityDpi, first.scaledDensity),
                 second.density, second.densityDpi, second.scaledDensity) == once
  {
  }

  /** `after` is `before` with `info` written into every display-metrics structure it reaches */
  predicate AppliedTo(before: Resources, after: Resources, info: DisplayMetricsInfo) {
    && Shows(after.displayMetrics, info)
    && SameLayout(after.displayMetrics, before.displayMetrics)
    && after.tmpMetrics.Some? == before.tmpMetrics.Some?
    && (after.tmpMetrics.Some? ==>
          Shows(after.tmpMetrics.value, info) && SameLayout(after.tmpMetrics.value, before.tmpMetrics.value))
  }

  /** Writes `info` into the display metrics of a `Resources` and, when the MIUI patch found it, into `mTmpMetrics` */
  function Apply(res: Resources, info: DisplayMetricsInfo): (r: Resources)
    ensures AppliedTo(res, r, info)
  {
    var dm := SetDensity(res.displayMetrics, info.density, info.densityDpi, info.scaledDensity);
    match res.tmpMetrics
    case None => Resources(dm, None)
    case Some(tmp) => Resources(dm, Some(SetDensity(tmp, info.density, info.densityDpi, info.scaledDensity)))
  }

  /** Applying a second triple leaves no trace of the first */
  lemma ApplyLastWins(res: Resources, first: DisplayMetricsInfo, second: DisplayMetricsInfo)
    ensures Apply(Apply(res, first), second) == Apply(res, second)
  {
  }
}
