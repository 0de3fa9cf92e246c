/**
 * The multi-view settings record (MVRSettings.h): how many views to render,
 * which rendering path to use, and the multisample and shader-stage toggles.
 * The user interface writes it freely; `MvrDemo.Validated` repairs it once
 * per frame before any rendering decision reads it.
 */
module MvrSettings {

  /** `MAX_VIEWS` of common.h: the number of layers of the intermediate texture arrays. */
  const MaxViews: nat := 4

  datatype Views = TwoViews | QuadView

  datatype RenderMode = SoftwareFallback | SinglePassStereo | MultiViewRendering

  datatype Settings = Settings(
    multisample: bool,
    useGeometryShader: bool,
    useTessellationShader: bool,
    views: Views,
    renderMode: RenderMode)

  /** The record as the default member initialisers leave it. */
  function Default(): Settings
  {
    Settings(
      multisample := false,
      useGeometryShader := false,
      useTessellationShader := false,
      views := TwoViews,
      renderMode := SoftwareFallback)
  }

  /** How many views a frame renders: four for the quad view, two otherwise. */
  function ViewCount(views: Views): (n: nat)
    ensures n == 2 || n == 4
    ensures n <= MaxViews
    ensures n == 4 <==> views == QuadView
  {
    if views == QuadView then 4 else 2
  }
}
