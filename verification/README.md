# AutoSize density engine, modelled in Dafny

`AutoSize` adapts an Android screen to a design drawn at a fixed size in dp.
It takes the screen's pixel width (or height) and the design's width (or
height). From these it derives a new `density`, `densityDpi` and
`scaledDensity`, so that the design exactly fills that axis. The triple is
memoised in a process-wide table, then written into the display metrics of
the activity and of the application.

This project models that engine as pure functions over immutable records:

- `density_config.dfy`: the configuration the engine reads through
  `DensityConfig.getInstance()`. It holds the device baseline (`initDensity`,
  `initDensityDpi`, `initScaledDensity`, screen size, `useDeviceSize`) and
  the manifest's design defaults. It is one immutable record.
- `scale_factors.dfy`: the computation of a triple. Java `float` is modelled
  as `real`. The `(int)` cast is written out: it rounds toward zero and
  saturates at the 32-bit range. Division (`Quotient`) and the cast
  (`IntCast`) are defined by the property that characterises their result.
  That keeps the solver away from floor-of-quotient terms.
- `density_cache.dfy`: the memo table as a `map<Key, DisplayMetricsInfo>`.
  The key is a five-field tuple instead of the source's `|`-joined string.
  This module covers key construction, lookup and insert-on-miss, and the
  cache invariant. It also covers the table's behaviour over any sequence
  of calls.
- `metrics.dfy`: `DisplayMetrics` and `Resources` as plain records, and the
  field assignment `setDensity(DisplayMetrics, …)`.
- `auto_size.dfy`: the public entry points (global, custom override,
  external override, width/height, the primitive, and `cancelAdapt`). A null
  argument is an `Option` input. A thrown `NullPointerException` is a
  `Failure` result.

The cache invariant is `DensityCache.Consistent(cache, initDensity)`: every
stored triple is the one its key stands for. The key records the screen size
and `initScaledDensity`, but not `initDensity`
(`AutoSize.java:130-133`). The triple depends on `initDensity` through
`scaledDensity` (`AutoSize.java:147-148`). Otherwise the triple depends on
the configuration only through the key (`ComputeFactorsThroughKey`). Fields
outside the key, such as `initDensityDpi`, the design sizes and the screen
size on the other axis, do not affect the value. So the invariant is stated
relative to a fixed `initDensity` and holds whatever else the configuration
does. Independently of the invariant, a miss always stores and returns the
triple computed from the current configuration.

`InitDensityNotInKey` and `StaleHitAfterBaselineChange` show what happens when
`initDensity` changes: the key stays the same, the value should differ, and
the cached triple is returned anyway. The source records `initDensity` once
per process, so this is not claimed as a defect.

## Model

| member | source | states |
|---|---|---|
| `ScaleFactors.Quotient` | autodensity/src/main/java/com/tang/autodensity/AutoSize.java:143-148 | the quotient used for both divisions, characterised by `q * b == a` for a non-zero divisor |
| `ScaleFactors.IntCast` | autodensity/src/main/java/com/tang/autodensity/AutoSize.java:149 | Java's `(int)` cast: inside the int range it rounds toward zero; outside it saturates at `Integer.MAX_VALUE` / `MIN_VALUE`; the result is always a 32-bit int |
| `ScaleFactors.Compute` | autodensity/src/main/java/com/tang/autodensity/AutoSize.java:142-149 | on a miss, `density * sizeInDp` is the screen size on the chosen axis, `scaledDensity * initDensity == density * initScaledDensity` (the baseline font-scale ratio is kept), and `densityDpi` is the int cast of `density * 160` |
| `ScaleFactors.ComputeIsDetermined` | autodensity/src/main/java/com/tang/autodensity/AutoSize.java:142-149 | any triple meeting those three relations is the computed triple, so they fully specify it |
| `ScaleFactors.DensityDpiIsTruncation` | autodensity/src/main/java/com/tang/autodensity/AutoSize.java:149 | for a non-negative screen size and positive design size, `densityDpi >= 0`; while `density * 160` is inside the int range, `densityDpi <= density * 160 < densityDpi + 1` |
| `ScaleFactors.WidthExample` | autodensity/src/main/java/com/tang/autodensity/AutoSize.java:142-149 | a 1080-pixel width designed at 360dp on a 2.0/2.0 baseline gives density 3.0, densityDpi 480, scaledDensity 3.0 |
| `DensityConfig.ScreenSize` | autodensity/src/main/java/com/tang/autodensity/AutoSize.java:128-129 | the screen length on the basis axis: the width when basing on width, the height otherwise |
| `DensityCache.KeyOf` | autodensity/src/main/java/com/tang/autodensity/AutoSize.java:128-133 | the key carries the request's size and axis, and with `initDensity` it determines the computed triple |
| `DensityCache.KeysEqualIff` | autodensity/src/main/java/com/tang/autodensity/AutoSize.java:128-133 | two requests share a key exactly when size, axis, `useDeviceSize`, `initScaledDensity` and the screen size on that axis all agree |
| `DensityCache.ComputeFactorsThroughKey` | autodensity/src/main/java/com/tang/autodensity/AutoSize.java:128-148 | the computed triple depends only on the key and `initDensity` |
| `DensityCache.ConvertDensity` | autodensity/src/main/java/com/tang/autodensity/AutoSize.java:128-156 | afterwards the key is present and mapped to the triple handed on; a miss adds exactly that key and hands on the triple computed from the current configuration, whatever the cache holds; a hit leaves the cache unchanged; no other entry changes; on a consistent cache the triple equals the direct computation and the cache stays consistent |
| `DensityCache.SecondCallHits` | autodensity/src/main/java/com/tang/autodensity/AutoSize.java:135-156 | a second call with the same inputs returns the same triple and leaves the cache unchanged (one computation for two calls) |
| `DensityCache.ConvertAll` | autodensity/src/main/java/com/tang/autodensity/AutoSize.java:135-156 | over any sequence of calls, the domain becomes the old keys plus the keys looked up; no existing entry is changed or removed; a consistent cache stays consistent when all calls share one `initDensity` |
| `DensityCache.TraceCallsHit` | autodensity/src/main/java/com/tang/autodensity/AutoSize.java:135-156 | after a sequence of calls, repeating any one of them hits and leaves the cache unchanged |
| `DensityCache.InitDensityNotInKey` | autodensity/src/main/java/com/tang/autodensity/AutoSize.java:130-148 | two baselines that differ only in `initDensity` build the same key yet compute different `scaledDensity` values, when the screen size and `initScaledDensity` are non-zero |
| `DensityCache.StaleHitAfterBaselineChange` | autodensity/src/main/java/com/tang/autodensity/AutoSize.java:130-156 | a triple cached under one `initDensity` is returned unchanged after `initDensity` changes, and it is no longer the direct computation |
| `Metrics.SetDensity` | autodensity/src/main/java/com/tang/autodensity/AutoSize.java:209-213 | the three density fields hold the given values; every other field is unchanged |
| `Metrics.SetDensityLastWins` | autodensity/src/main/java/com/tang/autodensity/AutoSize.java:209-213 | a second assignment completely overrides the first |
| `Metrics.Apply` | autodensity/src/main/java/com/tang/autodensity/AutoSize.java:184-198 | a `Resources`' display metrics, and its MIUI `mTmpMetrics` when present, show the triple; their other fields are unchanged, and so is whether `mTmpMetrics` was found |
| `Metrics.ApplyLastWins` | autodensity/src/main/java/com/tang/autodensity/AutoSize.java:184-198 | applying a second triple leaves no trace of the first |
| `AutoSize.ResolveGlobal` | autodensity/src/main/java/com/tang/autodensity/AutoSize.java:44-50 | the global path uses the configured axis and that axis's design size: `(designWidthInDp, true)` or `(designHeightInDp, false)` |
| `AutoSize.ResolveCustom` | autodensity/src/main/java/com/tang/autodensity/AutoSize.java:58-71 | a null override fails with "customAdapt == null", and only then; the axis flag is the override's; a positive size passes through; a size `<= 0` becomes the design size of the override's own axis |
| `AutoSize.ResolveExternal` | autodensity/src/main/java/com/tang/autodensity/AutoSize.java:79-92 | the same policy for third-party overrides, failing with "externalAdaptInfo == null" |
| `AutoSize.ExternalResolvesLikeCustom` | autodensity/src/main/java/com/tang/autodensity/AutoSize.java:60-91 | for every size and axis, the external path resolves exactly as the custom path |
| `AutoSize.ResolvedCustomIsPositive` | autodensity/src/main/java/com/tang/autodensity/AutoSize.java:62-69 | with a positive design size on the override's axis, the resolved size is positive |
| `AutoSize.ApplyEverywhere` | autodensity/src/main/java/com/tang/autodensity/AutoSize.java:180-199 | the triple is written to the activity's and the application's metrics, including the MIUI ones; the cache is unchanged |
| `AutoSize.AutoConvertDensity` | autodensity/src/main/java/com/tang/autodensity/AutoSize.java:125-159 | a null activity fails with "activity == null", before anything changes; otherwise the cache grows by exactly the request's key, mapped to the applied triple; on a miss the applied triple is the direct computation; both metrics show the triple; on a consistent cache the triple is the direct computation and the cache stays consistent |
| `AutoSize.AutoConvertDensityBaseOnWidth` | autodensity/src/main/java/com/tang/autodensity/AutoSize.java:100-102 | calls the primitive on the width axis; on a consistent cache the applied density is screen width / design width |
| `AutoSize.AutoConvertDensityBaseOnHeight` | autodensity/src/main/java/com/tang/autodensity/AutoSize.java:110-112 | calls the primitive on the height axis; on a consistent cache the applied density is screen height / design height |
| `AutoSize.AutoConvertDensityOfGlobal` | autodensity/src/main/java/com/tang/autodensity/AutoSize.java:44-50 | calls the primitive with the globally resolved request |
| `AutoSize.AutoConvertDensityOfCustomAdapt` | autodensity/src/main/java/com/tang/autodensity/AutoSize.java:58-71 | a null override fails before the activity is checked; otherwise calls the primitive with the resolved, non-zero size and the override's axis |
| `AutoSize.AutoConvertDensityOfExternalAdaptInfo` | autodensity/src/main/java/com/tang/autodensity/AutoSize.java:79-92 | the same for a third-party override |
| `AutoSize.Baseline` | autodensity/src/main/java/com/tang/autodensity/AutoSize.java:167-169 | the triple `cancelAdapt` applies is exactly `(initDensity, initDensityDpi, initScaledDensity)` |
| `AutoSize.NativeSizeGivesBaseline` | autodensity/src/main/java/com/tang/autodensity/AutoSize.java:142-169 | adapting to the device's own size in dp (screen size / `initDensity`) computes the baseline triple, when `initDensityDpi` is the cast of `initDensity * 160` |
| `AutoSize.CancelAdapt` | autodensity/src/main/java/com/tang/autodensity/AutoSize.java:166-170 | a null activity fails; otherwise exactly `(initDensity, initDensityDpi, initScaledDensity)` is applied to both metrics, and the cache is untouched |
| `AutoSize.CancelThenAdaptRestores` | autodensity/src/main/java/com/tang/autodensity/AutoSize.java:125-170 | adapting, cancelling, then adapting again with the same request gives back exactly the first adapted state: same cache, triple and metrics |
| `AutoSize.WidthFallbackExample` | autodensity/src/main/java/com/tang/autodensity/AutoSize.java:62-70 | a custom override of 0dp on the width axis, with a 375dp design width, gives density `screenWidth / 375` |

## Left out

- Floating point: `float` is modelled as exact `real`, so IEEE-754 rounding is not modelled. A zero divisor is excluded by `requires` (`sizeInDp != 0`, `initDensity != 0`). In Java it yields Infinity or NaN, and `(int)` then saturates or gives 0. The width/height entry points apply no fallback, so this case is reachable there.
- `AutoSize.AutoConvertDensityOfGlobal`: requires the configured design size to be non-zero, for the same reason.
- `AutoSize.AutoConvertDensityOfCustomAdapt` and `AutoSize.AutoConvertDensityOfExternalAdaptInfo`: require a non-zero design size on the override's axis when the fallback applies, for the same reason.
- The string form of the cache key: it is a tuple. The source joins five values that never contain `|`, so distinct tuples give distinct strings.
- `ConcurrentHashMap` thread safety: the cache is a sequential `map`. Its only use is as a memo table of a deterministic computation.
- `getMetricsOnMiui` (`AutoSize.java:222-233`): reflection on runtime class names cannot be modelled. Its outcome is the `tmpMetrics` option of `Resources`: present when the patch finds `mTmpMetrics`, absent otherwise.
- Android objects: `Activity`, `Application` and `getResources()` are reduced to `Resources` records. The activity and the application might share one `DisplayMetrics` object. Both receive the same triple, so the separate records observe the same final values.
- `DensityConfig` and `Preconditions` are not part of this model. The configuration is an immutable input record. `checkNotNull` is a `Failure(NullArgument(message))` on a `None` input.
- The override's `isBaseOnWidth()` is read twice in the source: once to pick the fallback size and once to pass on (`AutoSize.java:64` and `70`, `85` and `91`). The override is a record here, so both reads return the same value; an override whose answer changes between the two calls is not modelled.
- The private `AutoSize()` constructor that throws `IllegalStateException`: no instance is ever made.
- `Quotient`: defined by its characterising property rather than by `/`, so the model is verified but not compiled.
