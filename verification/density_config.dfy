/**
 * The process-wide configuration the adaptation engine reads through
 * `DensityConfig.getInstance()`: the device baseline recorded at start-up
 * and the design size declared in the application manifest.  The engine
 * never writes to it, so it is an immutable record handed to every
 * operation.
 */
module DensityConfig {

  datatype Config = Config(
    // device baseline, recorded from the platform's display metrics
    initDensity: real,
    initDensityDpi: int,
    initScaledDensity: real,
    // screen size in pixels; which size depends on `useDeviceSize`
    screenWidth: int,
    screenHeight: int,
    useDeviceSize: bool,
    // design defaults from the manifest
    isBaseOnWidth: bool,
    designWidthInDp: real,
    designHeightInDp: real)

  /** The screen length, in pixels, along the chosen basis axis */
  function ScreenSize(cfg: Config, isBaseOnWidth: bool): (n: int)
    ensures isBaseOnWidth ==> n == cfg.screenWidth
    ensures !isBaseOnWidth ==> n == cfg.screenHeight
  {
    if isBaseOnWidth then cfg.screenWidth else cfg.screenHeight
  }

  /** The manifest's design length, in dp, along the chosen basis axis */
  function DesignSize(cfg: Config, isBaseOnWidth: bool): real {
    if isBaseOnWidth then cfg.designWidthInDp else cfg.designHeightInDp
  }
}
