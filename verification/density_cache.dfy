/**
 * The process-wide memo table of `AutoSize.autoConvertDensity`.  The key
 * holds every input the computed triple depends on except the baseline
 * `initDensity`; a miss computes the triple and stores it, a hit returns
 * the stored triple, and nothing is ever removed.
 */
module DensityCache {
  import opened DensityConfig
  import opened ScaleFactors

  /** The cache key; the source joins these five values into a string with `|` */
  datatype Key = Key(sizeInDp: real, isBaseOnWidth: bool, useDeviceSize: bool, initScaledDensity: real, screenSize: int)

  type Cache = map<Key, DisplayMetricsInfo>

  /**
   * The key of one request under the current configuration.  Together
   * with `initDensity` it determines the computed triple.
   */
  function KeyOf(cfg: Config, sizeInDp: real, isBaseOnWidth: bool): (k: Key)
    ensures k.sizeInDp == sizeInDp && k.isBaseOnWidth == isBaseOnWidth
    ensures sizeInDp != 0.0 && cfg.initDensity != 0.0 ==>
      ValueOf(k, cfg.initDensity) == Compute(cfg, sizeInDp, isBaseOnWidth)
  {
    Key(sizeInDp, isBaseOnWidth, cfg.useDeviceSize, cfg.initScaledDensity, ScreenSize(cfg, isBaseOnWidth))
  }

  /**
   * Two requests share a key exactly when they agree on the size, the axis,
   * `useDeviceSize`, `initScaledDensity` and the screen size on that axis.
   */
  lemma KeysEqualIff(cfg1: Config, size1: real, width1: bool, cfg2: Config, size2: real, width2: bool)
    ensures KeyOf(cfg1, size1, width1) == KeyOf(cfg2, size2, width2) <==>
      && size1 == size2
      && width1 == width2
      && cfg1.useDeviceSize == cfg2.useDeviceSize
      && cfg1.initScaledDensity == cfg2.initScaledDensity
      && ScreenSize(cfg1, width1) == ScreenSize(cfg2, width2)
  {
  }

  /**
   * The triple a key stands for once the baseline density is fixed: the
   * key carries the screen size and the scaled baseline, so only
   * `initDensity` is missing.
   */
  function ValueOf(k: Key, initDensity: real): DisplayMetricsInfo
    requires k.sizeInDp != 0.0 && initDensity != 0.0
  {
    var density := Quotient(k.screenSize as real, k.sizeInDp);
    DisplayMetricsInfo(density, IntCast(density * DENSITY_DEFAULT), density * Quotient(k.initScaledDensity, initDensity))
  }

  /** The cache invariant: every stored triple is the one its key stands for */
  ghost predicate Consistent(cache: Cache, initDensity: real) {
    initDensity != 0.0 &&
    forall k :: k in cache ==> k.sizeInDp != 0.0 && cache[k] == ValueOf(k, initDensity)
  }

  /** `after` is `before` with exactly `key` added, if it was missing, and nothing else changed */
  ghost predicate GrowsBy(before: Cache, after: Cache, key: Key) {
    && after.Keys == before.Keys + {key}
    && forall k :: k in before ==> after[k] == before[k]
  }

  /** The computation depends on the configuration only through the key and `initDensity` */
  lemma ComputeFactorsThroughKey(cfg: Config, sizeInDp: real, isBaseOnWidth: bool)
    requires sizeInDp != 0.0 && cfg.initDensity != 0.0
    ensures Compute(cfg, sizeInDp, isBaseOnWidth) == ValueOf(KeyOf(cfg, sizeInDp, isBaseOnWidth), cfg.initDensity)
  {
  }

  /** The outcome of one lookup: the triple handed on and the cache afterwards */
  datatype Lookup = Lookup(info: DisplayMetricsInfo, cache: Cache)

  /**
   * Key construction, lookup and insert-on-miss.  On a consistent cache the
   * triple handed on is what a direct computation gives, and the cache
   * stays consistent; on any cache the key is present afterwards, mapped
   * to the triple handed on, and no other entry changes.
   */
  function ConvertDensity(cache: Cache, cfg: Config, sizeInDp: real, isBaseOnWidth: bool): (r: Lookup)
    requires sizeInDp != 0.0 && cfg.initDensity != 0.0
    ensures GrowsBy(cache, r.cache, KeyOf(cfg, sizeInDp, isBaseOnWidth))
    ensures r.cache[KeyOf(cfg, sizeInDp, isBaseOnWidth)] == r.info
    ensures KeyOf(cfg, sizeInDp, isBaseOnWidth) in cache ==> r.cache == cache
    ensures KeyOf(cfg, sizeInDp, isBaseOnWidth) !in cache ==> r.info == Compute(cfg, sizeInDp, isBaseOnWidth)
    ensures Consistent(cache, cfg.initDensity) ==>
      r.info == Compute(cfg, sizeInDp, isBaseOnWidth) && Consistent(r.cache, cfg.initDensity)
  {
    var key := KeyOf(cfg, sizeInDp, isBaseOnWidth);
    ComputeFactorsThroughKey(cfg, sizeInDp, isBaseOnWidth);
    if key in cache then
      Lookup(cache[key], cache)
    else
      var info := Compute(cfg, sizeInDp, isBaseOnWidth);
      Lookup(info, cache[key := info])
  }

  /** One call of the primitive over the process lifetime: the configuration then in force and the request */
  datatype Call = Call(cfg: Config, sizeInDp: real, isBaseOnWidth: bool)

  /** The divisions of a call are defined */
  predicate Computable(c: Call) {
    c.sizeInDp != 0.0 && c.cfg.initDensity != 0.0
  }

  /** Every call of a trace runs on baseline density `d` */
  predicate OnBaseline(calls: seq<Call>, d: real) {
    forall i :: 0 <= i < |calls| ==> calls[i].cfg.initDensity == d
  }

  function KeyOfCall(c: Call): Key {
    KeyOf(c.cfg, c.sizeInDp, c.isBaseOnWidth)
  }

  /** The keys a trace of calls looks up */
  ghost function KeysOf(calls: seq<Call>): set<Key> {
    set i | 0 <= i < |calls| :: KeyOfCall(calls[i])
  }

  lemma KeysOfCons(calls: seq<Call>)
    requires |calls| > 0
    ensures KeysOf(calls) == {KeyOfCall(calls[0])} + KeysOf(calls[1..])
  {
    forall k | k in KeysOf(calls)
      ensures k in {KeyOfCall(calls[0])} + KeysOf(calls[1..])
    {
      var i :| 0 <= i < |calls| && k == KeyOfCall(calls[i]);
      if i > 0 {
        assert calls[1..][i - 1] == calls[i];
      }
    }
    forall k | k in KeysOf(calls[1..])
      ensures k in KeysOf(calls)
    {
      var i :| 0 <= i < |calls[1..]| && k == KeyOfCall(calls[1..][i]);
      assert calls[1..][i] == calls[i + 1];
    }
  }

  /**
   * The cache after a whole trace of calls: it holds exactly the old keys
   * and the keys the trace looked up, no old entry has changed, and a trace
   * on one baseline density keeps a consistent cache consistent.
   */
  function ConvertAll(cache: Cache, calls: seq<Call>): (r: Cache)
    requires forall i :: 0 <= i < |calls| ==> Computable(calls[i])
    ensures r.Keys == cache.Keys + KeysOf(calls)
    ensures forall k :: k in cache ==> r[k] == cache[k]
    ensures forall d :: Consistent(cache, d) && OnBaseline(calls, d) ==> Consistent(r, d)
    decreases |calls|
  {
    if |calls| == 0 then
      assert KeysOf(calls) == {};
      cache
    else
      var c := calls[0];
      assert Computable(c);
      KeysOfCons(calls);
      assert forall d :: OnBaseline(calls, d) ==> OnBaseline(calls[1..], d);
      ConvertAll(ConvertDensity(cache, c.cfg, c.sizeInDp, c.isBaseOnWidth).cache, calls[1..])
  }

  /** After a trace, repeating any of its calls hits the cache */
  lemma TraceCallsHit(cache: Cache, calls: seq<Call>, i: nat)
    requires forall j :: 0 <= j < |calls| ==> Computable(calls[j])
    requires i < |calls|
    ensures var after := ConvertAll(cache, calls);
      ConvertDensity(after, calls[i].cfg, calls[i].sizeInDp, calls[i].isBaseOnWidth).cache == after
  {
  }

  /** A second call with the same inputs hits: same triple, cache untouched */
  lemma SecondCallHits(cache: Cache, cfg: Config, sizeInDp: real, isBaseOnWidth: bool)
    requires sizeInDp != 0.0 && cfg.initDensity != 0.0
    ensures var first := ConvertDensity(cache, cfg, sizeInDp, isBaseOnWidth);
      ConvertDensity(first.cache, cfg, sizeInDp, isBaseOnWidth) == first
  {
  }

  /**
   * Two baselines that differ only in `initDensity` build the same key yet
   * compute different scaledDensity values, whenever the screen size and
   * the scaled baseline are non-zero.
   */
  lemma InitDensityNotInKey(cfg: Config, otherInitDensity: real, sizeInDp: real, isBaseOnWidth: bool)
    requires sizeInDp != 0.0 && cfg.initDensity != 0.0 && otherInitDensity != 0.0
    requires otherInitDensity != cfg.initDensity
    requires ScreenSize(cfg, isBaseOnWidth) != 0 && cfg.initScaledDensity != 0.0
    ensures var other := cfg.(initDensity := otherInitDensity);
      && KeyOf(other, sizeInDp, isBaseOnWidth) == KeyOf(cfg, sizeInDp, isBaseOnWidth)
      && Compute(other, sizeInDp, isBaseOnWidth).scaledDensity != Compute(cfg, sizeInDp, isBaseOnWidth).scaledDensity
  {
    var other := cfg.(initDensity := otherInitDensity);
    var a := Compute(cfg, sizeInDp, isBaseOnWidth);
    var b := Compute(other, sizeInDp, isBaseOnWidth);
    assert a.density != 0.0 by {
      NonZeroQuotient(ScreenSize(cfg, isBaseOnWidth) as real, sizeInDp, a.density);
    }
    ScaleRatioDiffers(a.density, cfg.initScaledDensity, cfg.initDensity, otherInitDensity, a.scaledDensity, b.scaledDensity);
  }

  /** A quotient of a non-zero value is non-zero */
  lemma NonZeroQuotient(x: real, d: real, q: real)
    requires x != 0.0 && q * d == x
    ensures q != 0.0
  {
  }

  /** Rescaling a non-zero value by two different baselines gives two different results */
  lemma ScaleRatioDiffers(density: real, scaled: real, d1: real, d2: real, s1: real, s2: real)
    requires density != 0.0 && scaled != 0.0 && d1 != d2
    requires s1 * d1 == density * scaled && s2 * d2 == density * scaled
    ensures s1 != s2
  {
    if s1 == s2 {
      NonZeroProduct(density, scaled);
      CommonFactor(s1, d1, d2, density * scaled);
    }
  }

  /** Equal non-zero products with a common factor have equal cofactors */
  lemma CommonFactor(s: real, x: real, y: real, c: real)
    requires c != 0.0 && s * x == c && s * y == c
    ensures x == y
  {
    assert s * (x - y) == 0.0;
  }

  /** A product of non-zero reals is non-zero */
  lemma NonZeroProduct(x: real, y: real)
    requires x != 0.0 && y != 0.0
    ensures x * y != 0.0
  {
  }

  /**
   * What the missing `initDensity` costs: a triple cached under one
   * baseline is returned unchanged after `initDensity` changes, and its
   * scaledDensity is then not the one a direct computation gives.
   */
  lemma StaleHitAfterBaselineChange(cfg: Config, otherInitDensity: real, sizeInDp: real, isBaseOnWidth: bool)
    requires sizeInDp != 0.0 && cfg.initDensity != 0.0 && otherInitDensity != 0.0
    requires otherInitDensity != cfg.initDensity
    requires ScreenSize(cfg, isBaseOnWidth) != 0 && cfg.initScaledDensity != 0.0
    ensures var other := cfg.(initDensity := otherInitDensity);
      var first := ConvertDensity(map[], cfg, sizeInDp, isBaseOnWidth);
      var second := ConvertDensity(first.cache, other, sizeInDp, isBaseOnWidth);
      && second.info == first.info
      && second.info != Compute(other, sizeInDp, isBaseOnWidth)
  {
    InitDensityNotInKey(cfg, otherInitDensity, sizeInDp, isBaseOnWidth);
    assert Consistent(map[], cfg.initDensity);
  }
}
