/**
 * The public entry points of `AutoSize`: four ways of choosing the design
 * size and basis axis, all converging on the cached primitive, plus the
 * reset that restores the device baseline.  The process-wide state is the
 * memo table and the application's resources; an activity is passed as
 * its (possibly null) resources.
 */
module AutoSize {
  import opened Wrappers
  import opened DensityConfig
  import opened ScaleFactors
  import opened DensityCache
  import opened Metrics

  /** What the entry points throw */
  datatype Error =
    | NullArgument(message: string)  // `Preconditions.checkNotNull` with this message
    | NullActivity                   // dereference of a null activity in `cancelAdapt`

  /** Per-screen override supplied by an activity */
  datatype CustomAdapter = CustomAdapter(sizeInDp: real, isBaseOnWidth: bool)

  /** Override supplied for a third-party library's activity */
  datatype ExternalAdaptInfo = ExternalAdaptInfo(sizeInDp: real, isBaseOnWidth: bool)

  /** The arguments an entry point hands to the primitive */
  datatype Request = Request(sizeInDp: real, isBaseOnWidth: bool)

  /** Process-wide state: the memo table and the application's resources */
  datatype Session = Session(cache: Cache, app: Resources)

  /** The state after a successful call, the activity's resources, and the triple that was applied */
  datatype Adapted = Adapted(session: Session, activity: Resources, applied: DisplayMetricsInfo)

  /** The request of the global entry point: the configured axis and its design size */
  function ResolveGlobal(cfg: Config): (q: Request)
    ensures q.isBaseOnWidth == cfg.isBaseOnWidth
    ensures q.sizeInDp == DesignSize(cfg, q.isBaseOnWidth)
  {
    if cfg.isBaseOnWidth then Request(cfg.designWidthInDp, true) else Request(cfg.designHeightInDp, false)
  }

  /**
   * The request of the custom entry point: a positive override size passes
   * through, a non-positive one becomes the design size of the override's
   * own axis, and the axis flag is always the override's.
   */
  function ResolveCustom(cfg: Config, customAdapt: Option<CustomAdapter>): (r: Result<Request, Error>)
    ensures customAdapt.None? <==> r.Failure?
    ensures r.Failure? ==> r.error == NullArgument("customAdapt == null")
    ensures r.Success? ==> r.value.isBaseOnWidth == customAdapt.value.isBaseOnWidth
    ensures r.Success? && customAdapt.value.sizeInDp > 0.0 ==> r.value.sizeInDp == customAdapt.value.sizeInDp
    ensures r.Success? && customAdapt.value.sizeInDp <= 0.0 ==>
      r.value.sizeInDp == DesignSize(cfg, customAdapt.value.isBaseOnWidth)
  {
    match customAdapt
    case None => Failure(NullArgument("customAdapt == null"))
    case Some(c) =>
      var sizeInDp :=
        if c.sizeInDp <= 0.0 then
          if c.isBaseOnWidth then cfg.designWidthInDp else cfg.designHeightInDp
        else c.sizeInDp;
      Success(Request(sizeInDp, c.isBaseOnWidth))
  }

  /** The request of the external entry point, resolved by the same policy as the custom one */
  function ResolveExternal(cfg: Config, externalAdaptInfo: Option<ExternalAdaptInfo>): (r: Result<Request, Error>)
    ensures externalAdaptInfo.None? <==> r.Failure?
    ensures r.Failure? ==> r.error == NullArgument("externalAdaptInfo == null")
    ensures r.Success? ==> r.value.isBaseOnWidth == externalAdaptInfo.value.isBaseOnWidth
    ensures r.Success? && externalAdaptInfo.value.sizeInDp > 0.0 ==> r.value.sizeInDp == externalAdaptInfo.value.sizeInDp
    ensures r.Success? && externalAdaptInfo.value.sizeInDp <= 0.0 ==>
      r.value.sizeInDp == DesignSize(cfg, externalAdaptInfo.value.isBaseOnWidth)
  {
    match externalAdaptInfo
    case None => Failure(NullArgument("externalAdaptInfo == null"))
    case Some(e) =>
      var sizeInDp :=
        if e.sizeInDp <= 0.0 then
          if e.isBaseOnWidth then cfg.designWidthInDp else cfg.designHeightInDp
        else e.sizeInDp;
      Success(Request(sizeInDp, e.isBaseOnWidth))
  }

  /** Both override kinds resolve identically for every input, the error message aside */
  lemma ExternalResolvesLikeCustom(cfg: Config, sizeInDp: real, isBaseOnWidth: bool)
    ensures ResolveExternal(cfg, Some(ExternalAdaptInfo(sizeInDp, isBaseOnWidth)))
         == ResolveCustom(cfg, Some(CustomAdapter(sizeInDp, isBaseOnWidth)))
  {
  }

  /** A resolved override is positive whenever the design size of its axis is */
  lemma ResolvedCustomIsPositive(cfg: Config, c: CustomAdapter)
    requires DesignSize(cfg, c.isBaseOnWidth) > 0.0
    ensures ResolveCustom(cfg, Some(c)).value.sizeInDp > 0.0
  {
  }

  /** Writes one triple into the activity's and the application's display metrics */
  function ApplyEverywhere(s: Session, activity: Resources, info: DisplayMetricsInfo): (r: Adapted)
    ensures r.session.cache == s.cache
    ensures r.applied == info
    ensures AppliedTo(activity, r.activity, info)
    ensures AppliedTo(s.app, r.session.app, info)
  {
    Adapted(Session(s.cache, Apply(s.app, info)), Apply(activity, info), info)
  }

  /**
   * The primitive: a null activity is rejected before anything changes;
   * otherwise the request's key is looked up (and stored on a miss) and
   * the triple is applied.  On a consistent cache the applied triple is
   * the directly computed one.
   */
  function AutoConvertDensity(s: Session, cfg: Config, activity: Option<Resources>, sizeInDp: real, isBaseOnWidth: bool)
    : (r: Result<Adapted, Error>)
    requires sizeInDp != 0.0 && cfg.initDensity != 0.0
    ensures activity.None? <==> r.Failure?
    ensures r.Failure? ==> r.error == NullArgument("activity == null")
    ensures r.Success? ==>
      && GrowsBy(s.cache, r.value.session.cache, KeyOf(cfg, sizeInDp, isBaseOnWidth))
      && r.value.session.cache[KeyOf(cfg, sizeInDp, isBaseOnWidth)] == r.value.applied
      && AppliedTo(activity.value, r.value.activity, r.value.applied)
      && AppliedTo(s.app, r.value.session.app, r.value.applied)
    ensures r.Success? && KeyOf(cfg, sizeInDp, isBaseOnWidth) !in s.cache ==>
      r.value.applied == Compute(cfg, sizeInDp, isBaseOnWidth)
    ensures r.Success? && Consistent(s.cache, cfg.initDensity) ==>
      && r.value.applied == Compute(cfg, sizeInDp, isBaseOnWidth)
      && Consistent(r.value.session.cache, cfg.initDensity)
  {
    match activity
    case None => Failure(NullArgument("activity == null"))
    case Some(act) =>
      var lookup := ConvertDensity(s.cache, cfg, sizeInDp, isBaseOnWidth);
      Success(ApplyEverywhere(Session(lookup.cache, s.app), act, lookup.info))
  }

  /** Adapts so that `designWidthInDp` dp fill the screen width */
  function AutoConvertDensityBaseOnWidth(s: Session, cfg: Config, activity: Option<Resources>, designWidthInDp: real)
    : (r: Result<Adapted, Error>)
    requires designWidthInDp != 0.0 && cfg.initDensity != 0.0
    ensures r == AutoConvertDensity(s, cfg, activity, designWidthInDp, true)
    ensures r.Success? && Consistent(s.cache, cfg.initDensity) ==>
      r.value.applied.density == Quotient(cfg.screenWidth as real, designWidthInDp)
  {
    AutoConvertDensity(s, cfg, activity, designWidthInDp, true)
  }

  /** Adapts so that `designHeightInDp` dp fill the screen height */
  function AutoConvertDensityBaseOnHeight(s: Session, cfg: Config, activity: Option<Resources>, designHeightInDp: real)
    : (r: Result<Adapted, Error>)
    requires designHeightInDp != 0.0 && cfg.initDensity != 0.0
    ensures r == AutoConvertDensity(s, cfg, activity, designHeightInDp, false)
    ensures r.Success? && Consistent(s.cache, cfg.initDensity) ==>
      r.value.applied.density == Quotient(cfg.screenHeight as real, designHeightInDp)
  {
    AutoConvertDensity(s, cfg, activity, designHeightInDp, false)
  }

  /** Adapts with the manifest's axis and design size */
  function AutoConvertDensityOfGlobal(s: Session, cfg: Config, activity: Option<Resources>): (r: Result<Adapted, Error>)
    requires cfg.initDensity != 0.0 && DesignSize(cfg, cfg.isBaseOnWidth) != 0.0
    ensures r == AutoConvertDensity(s, cfg, activity, ResolveGlobal(cfg).sizeInDp, ResolveGlobal(cfg).isBaseOnWidth)
  {
    if cfg.isBaseOnWidth then
      AutoConvertDensityBaseOnWidth(s, cfg, activity, cfg.designWidthInDp)
    else
      AutoConvertDensityBaseOnHeight(s, cfg, activity, cfg.designHeightInDp)
  }

  /**
   * Adapts with an activity's own override; the override is checked for
   * null before the activity is.
   */
  function AutoConvertDensityOfCustomAdapt(s: Session, cfg: Config, activity: Option<Resources>, customAdapt: Option<CustomAdapter>)
    : (r: Result<Adapted, Error>)
    requires cfg.initDensity != 0.0
    requires customAdapt.Some? ==> customAdapt.value.sizeInDp > 0.0 || DesignSize(cfg, customAdapt.value.isBaseOnWidth) != 0.0
    ensures customAdapt.None? ==> r == Failure(NullArgument("customAdapt == null"))
    ensures customAdapt.Some? ==>
      var q := ResolveCustom(cfg, customAdapt).value;
      q.sizeInDp != 0.0 && r == AutoConvertDensity(s, cfg, activity, q.sizeInDp, q.isBaseOnWidth)
  {
    match ResolveCustom(cfg, customAdapt)
    case Failure(e) => Failure(e)
    case Success(q) => AutoConvertDensity(s, cfg, activity, q.sizeInDp, q.isBaseOnWidth)
  }

  /** Adapts with a third-party library's override, by the same policy as the custom one */
  function AutoConvertDensityOfExternalAdaptInfo(s: Session, cfg: Config, activity: Option<Resources>, externalAdaptInfo: Option<ExternalAdaptInfo>)
    : (r: Result<Adapted, Error>)
    requires cfg.initDensity != 0.0
    requires externalAdaptInfo.Some? ==>
      externalAdaptInfo.value.sizeInDp > 0.0 || DesignSize(cfg, externalAdaptInfo.value.isBaseOnWidth) != 0.0
    ensures externalAdaptInfo.None? ==> r == Failure(NullArgument("externalAdaptInfo == null"))
    ensures externalAdaptInfo.Some? ==>
      var q := ResolveExternal(cfg, externalAdaptInfo).value;
      q.sizeInDp != 0.0 && r == AutoConvertDensity(s, cfg, activity, q.sizeInDp, q.isBaseOnWidth)
  {
    match ResolveExternal(cfg, externalAdaptInfo)
    case Failure(e) => Failure(e)
    case Success(q) => AutoConvertDensity(s, cfg, activity, q.sizeInDp, q.isBaseOnWidth)
  }

  /** The device baseline as a triple, the one `cancelAdapt` applies */
  function Baseline(cfg: Config): (b: DisplayMetricsInfo)
    ensures b.density == cfg.initDensity
    ensures b.densityDpi == cfg.initDensityDpi
    ensures b.scaledDensity == cfg.initScaledDensity
  {
    DisplayMetricsInfo(cfg.initDensity, cfg.initDensityDpi, cfg.initScaledDensity)
  }

  /**
   * Adapting to the device's own size in dp reproduces the baseline, when
   * the baseline densityDpi is the cast of `initDensity * 160`.
   */
  lemma NativeSizeGivesBaseline(cfg: Config, isBaseOnWidth: bool)
    requires cfg.initDensity != 0.0 && ScreenSize(cfg, isBaseOnWidth) != 0
    requires cfg.initDensityDpi == IntCast(cfg.initDensity * DENSITY_DEFAULT)
    ensures var nativeSize := Quotient(ScreenSize(cfg, isBaseOnWidth) as real, cfg.initDensity);
      nativeSize != 0.0 && Compute(cfg, nativeSize, isBaseOnWidth) == Baseline(cfg)
  {
    var screen := ScreenSize(cfg, isBaseOnWidth) as real;
    var nativeSize := Quotient(screen, cfg.initDensity);
    assert nativeSize != 0.0;
    var r := Compute(cfg, nativeSize, isBaseOnWidth);
    assert r.density * nativeSize == screen;
    assert r.density == cfg.initDensity by {
      CancelFactor(r.density, cfg.initDensity, nativeSize, screen);
    }
    assert r.scaledDensity == cfg.initScaledDensity by {
      CancelFactor(r.scaledDensity, cfg.initScaledDensity, cfg.initDensity, cfg.initDensity * cfg.initScaledDensity);
    }
  }

  /** Restores the device baseline in every display metrics, leaving the cache alone */
  function CancelAdapt(s: Session, cfg: Config, activity: Option<Resources>): (r: Result<Adapted, Error>)
    ensures activity.None? <==> r.Failure?
    ensures r.Failure? ==> r.error == NullActivity
    ensures r.Success? ==>
      && r.value.session.cache == s.cache
      && r.value.applied.density == cfg.initDensity
      && r.value.applied.densityDpi == cfg.initDensityDpi
      && r.value.applied.scaledDensity == cfg.initScaledDensity
      && AppliedTo(activity.value, r.value.activity, r.value.applied)
      && AppliedTo(s.app, r.value.session.app, r.value.applied)
  {
    match activity
    case None => Failure(NullActivity)
    case Some(act) => Success(ApplyEverywhere(s, act, Baseline(cfg)))
  }

  /**
   * Cancelling and adapting again with the same request restores exactly
   * the adapted state: same cache, same triple, same display metrics.
   */
  lemma CancelThenAdaptRestores(s: Session, cfg: Config, activity: Resources, sizeInDp: real, isBaseOnWidth: bool)
    requires sizeInDp != 0.0 && cfg.initDensity != 0.0
    ensures var adapted := AutoConvertDensity(s, cfg, Some(activity), sizeInDp, isBaseOnWidth).value;
      var cancelled := CancelAdapt(adapted.session, cfg, Some(adapted.activity)).value;
      AutoConvertDensity(cancelled.session, cfg, Some(cancelled.activity), sizeInDp, isBaseOnWidth) == Success(adapted)
  {
  }

  /** The width fallback: an override of 0dp on the width axis uses the manifest's design width */
  lemma WidthFallbackExample(s: Session, activity: Resources)
    ensures var cfg := Config(2.0, 320, 2.0, 1080, 1920, false, false, 375.0, 667.0);
      var r := AutoConvertDensityOfCustomAdapt(s, cfg, Some(activity), Some(CustomAdapter(0.0, true)));
      Consistent(s.cache, 2.0) ==> r.value.applied.density == 1080.0 / 375.0
  {
  }
}
