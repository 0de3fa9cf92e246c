/**
 * The multi-view demo (MVRDemo.cpp): per frame it repairs the settings,
 * (re)allocates the intermediate texture arrays when their size or format
 * changed, renders the tori into the array layers along one of three paths,
 * and blits the layers side by side (two views) or into quadrants (four
 * views) of the caller's framebuffer.
 */
module MvrDemo {
  import opened Gl
  import opened MvrSettings
  import opened MvrPipeline
  import ToriDemo

  /* ---------------------------------------------------------------------
   * Settings validation
   * --------------------------------------------------------------------- */

  /**
   * `validateSettings`, as a function of the requested settings and the
   * probed capabilities: single-pass stereo is limited to two views, a path
   * whose extension is missing falls back to the software path, and
   * multi-view rendering without the multi-view tessellation/geometry
   * capability drops both shader-stage toggles.
   */
  function Validated(s: Settings, support: Support): (r: Settings)
    ensures r.renderMode == SinglePassStereo <==> s.renderMode == SinglePassStereo && support.sps
    ensures r.renderMode == MultiViewRendering <==> s.renderMode == MultiViewRendering && support.mvr
    ensures r.renderMode == SinglePassStereo ==> r.views == TwoViews
    ensures r.views == if s.renderMode == SinglePassStereo then TwoViews else s.views
    ensures r.renderMode == MultiViewRendering && (r.useGeometryShader || r.useTessellationShader) ==>
      support.mvrTessellationGeometryShader
    ensures (r.useGeometryShader, r.useTessellationShader) ==
      if r.renderMode == MultiViewRendering && !support.mvrTessellationGeometryShader then (false, false)
      else (s.useGeometryShader, s.useTessellationShader)
    ensures r.multisample == s.multisample
  {
    var s1 := if s.views == QuadView && s.renderMode == SinglePassStereo then s.(views := TwoViews) else s;
    assert s1.views == if s.renderMode == SinglePassStereo then TwoViews else s.views;
    var s2 := if s1.renderMode == SinglePassStereo && !support.sps then s1.(renderMode := SoftwareFallback) else s1;
    var s3 := if s2.renderMode == MultiViewRendering && !support.mvr then s2.(renderMode := SoftwareFallback) else s2;
    if s3.renderMode == MultiViewRendering && (s3.useGeometryShader || s3.useTessellationShader)
       && !support.mvrTessellationGeometryShader
    then s3.(useGeometryShader := false, useTessellationShader := false)
    else s3
  }

  /** Validation is silent and idempotent: validating validated settings changes nothing. */
  lemma ValidatedIsIdempotent(s: Settings, support: Support)
    ensures Validated(Validated(s, support), support) == Validated(s, support)
  {
  }

  /**
   * Validation only ever moves the mode to the software fallback, the view
   * count to two and the stage toggles to off; it never raises any of them.
   */
  lemma ValidatedOnlyDowngrades(s: Settings, support: Support)
    ensures var r := Validated(s, support);
      && (r.renderMode == s.renderMode || r.renderMode == SoftwareFallback)
      && (r.views == s.views || r.views == TwoViews)
      && (r.useGeometryShader ==> s.useGeometryShader)
      && (r.useTessellationShader ==> s.useTessellationShader)
  {
  }

  /** The default record is already valid, whatever the hardware supports. */
  lemma DefaultIsValid(support: Support)
    ensures Validated(Default(), support) == Default()
  {
  }

  /**
   * Validated settings never select a program slot that the pipeline's
   * constructor left uncompiled.
   */
  lemma ValidatedSelectsCreated(s: Settings, support: Support)
    ensures var v := Validated(s, support);
      InitialPrograms(support).Slot(GroupFor(v), StageFor(v)).Some?
  {
    var v := Validated(s, support);
    CreatedSlots(support, GroupFor(v), StageFor(v));
  }

  /* ---------------------------------------------------------------------
   * Intermediate texture arrays
   * --------------------------------------------------------------------- */

  /** What the demo remembers of its texture arrays: per-view size and whether they are multisampled. */
  datatype TextureState = TextureState(perViewWidth: int, perViewHeight: int, multisample: bool)

  /** Before the first frame: sizes 0, not multisampled. */
  const InitialTextures: TextureState := TextureState(0, 0, false)

  /** The window is split into two columns; into two rows as well for the quad view. */
  function PerViewWidth(width: nat): nat
  {
    width / 2
  }

  function PerViewHeight(views: Views, height: nat): nat
  {
    if views == QuadView then height / 2 else height
  }

  /** Rows of views in the window: one for two views, two for four. */
  function ViewRows(views: Views): nat
  {
    ViewCount(views) / 2
  }

  /** Whether `initTextures` frees and reallocates the arrays. */
  function Reallocates(t: TextureState, s: Settings, width: nat, height: nat, forceReInit: bool): bool
  {
    || forceReInit
    || t.perViewWidth != PerViewWidth(width)
    || t.perViewHeight != PerViewHeight(s.views, height)
    || s.multisample != t.multisample
  }

  /** The remembered state after `initTextures`: the sizes are always overwritten, the format only on reallocation. */
  function TexturesAfter(t: TextureState, s: Settings, width: nat, height: nat, forceReInit: bool): TextureState
  {
    TextureState(
      PerViewWidth(width),
      PerViewHeight(s.views, height),
      if Reallocates(t, s, width, height, forceReInit) then s.multisample else t.multisample)
  }

  /** Free the old arrays, then allocate colour and depth arrays of `MaxViews` layers in the requested format. */
  function ReallocationOps(multisample: bool, w: int, h: int): seq<GlOp>
  {
    [DeleteTextureArrays, AllocateTextureArrays(multisample, w, h, MaxViews)]
  }

  function InitTexturesOps(t: TextureState, s: Settings, width: nat, height: nat, forceReInit: bool): seq<GlOp>
  {
    if Reallocates(t, s, width, height, forceReInit)
    then ReallocationOps(s.multisample, PerViewWidth(width), PerViewHeight(s.views, height))
    else []
  }

  /**
   * After `initTextures` the arrays always have the requested per-view size
   * and format, and the call was a no-op exactly when it was not forced and
   * nothing it remembers changed.
   */
  lemma TexturesMatchRequest(t: TextureState, s: Settings, width: nat, height: nat, forceReInit: bool)
    ensures TexturesAfter(t, s, width, height, forceReInit) ==
      TextureState(PerViewWidth(width), PerViewHeight(s.views, height), s.multisample)
    ensures !Reallocates(t, s, width, height, forceReInit) <==>
      !forceReInit && TexturesAfter(t, s, width, height, forceReInit) == t
  {
  }

  /** Repeating an unforced `initTextures` with the same window and settings reallocates nothing. */
  lemma RepeatedInitIsNoOp(t: TextureState, s: Settings, width: nat, height: nat, forceReInit: bool)
    ensures var t' := TexturesAfter(t, s, width, height, forceReInit);
      && !Reallocates(t', s, width, height, false)
      && TexturesAfter(t', s, width, height, false) == t'
      && InitTexturesOps(t', s, width, height, false) == []
  {
  }

  /** The views tile the window without exceeding it. */
  lemma ViewsFitWindow(views: Views, width: nat, height: nat)
    ensures 2 * PerViewWidth(width) <= width < 2 * PerViewWidth(width) + 2
    ensures ViewRows(views) * PerViewHeight(views, height) <= height
  {
  }

  /* ---------------------------------------------------------------------
   * Rendering into the texture arrays
   * --------------------------------------------------------------------- */

  /** Tessellation needs patches; otherwise triangles are drawn. */
  function PrimitiveFor(s: Settings): Primitive
  {
    if s.useTessellationShader then Patches else Triangles
  }

  /** One pass of the software fallback: attach layer `view`, clear it, name the view to the shader, draw the scene. */
  function FallbackPass(view: nat, scene: seq<GlOp>): seq<GlOp>
  {
    PassHeader(view) + scene
  }

  function PassHeader(view: nat): seq<GlOp>
  {
    [ AttachLayer(ColorAttachment, view), AttachLayer(DepthAttachment, view),
      ClearColor(Background), ClearDepth(ClearDepthValue),
      SetFallbackId(view) ]
  }

  /** What a pass header contributes to the count of one command. */
  lemma PassCountFour(view: nat, x: GlOp)
    ensures Count(PassHeader(view), x) ==
      (if x == AttachLayer(ColorAttachment, view) || x == AttachLayer(DepthAttachment, view)
          || x == ClearColor(Background) || x == ClearDepth(ClearDepthValue) || x == SetFallbackId(view)
       then 1 else 0)
  {
    var hd := PassHeader(view);
    assert hd == [hd[0], hd[1], hd[2], hd[3]] + [hd[4]];
    CountFour(hd[0], hd[1], hd[2], hd[3], x);
    CountSingle(hd[4], x);
    CountAppend([hd[0], hd[1], hd[2], hd[3]], [hd[4]], x);
  }

  /** The passes for views 0 .. n-1, in increasing order. */
  function FallbackPasses(n: nat, scene: seq<GlOp>): seq<GlOp>
  {
    if n == 0 then [] else FallbackPasses(n - 1, scene) + FallbackPass(n - 1, scene)
  }

  /** The commands `renderToTexture` issues, given the commands of one drawing of the scene. */
  function RenderToTextureOps(s: Settings, scene: seq<GlOp>): seq<GlOp>
  {
    var views := ViewCount(s.views);
    [BindFramebuffer(DrawAndRead, Offscreen)] +
    match s.renderMode
    case SoftwareFallback =>
      FallbackPasses(views, scene)
    case SinglePassStereo =>
      [ AttachAllLayers(ColorAttachment), AttachAllLayers(DepthAttachment),
        ClearColor(Background), ClearDepth(ClearDepthValue) ] + scene
    case MultiViewRendering =>
      [ AttachMultiview(ColorAttachment, 0, views), AttachMultiview(DepthAttachment, 0, views),
        ClearColor(Background), ClearDepth(ClearDepthValue) ] + scene
  }

  /** How many times a frame draws the scene: once per view in the software fallback, once otherwise. */
  function Passes(s: Settings): nat
  {
    if s.renderMode == SoftwareFallback then ViewCount(s.views) else 1
  }

  /** Every fallback pass has the same length, and pass i sits at the i-th place. */
  lemma {:induction false} FallbackPassAt(n: nat, scene: seq<GlOp>, i: nat)
    requires i < n
    ensures |FallbackPasses(n, scene)| == n * (5 + |scene|)
    ensures var len := 5 + |scene|;
      FallbackPasses(n, scene)[i * len .. i * len + len] == FallbackPass(i, scene)
  {
    var len := 5 + |scene|;
    FallbackPassesLength(n - 1, scene);
    assert n * len == (n - 1) * len + len;
    var prefix := FallbackPasses(n - 1, scene);
    assert FallbackPasses(n, scene) == prefix + FallbackPass(n - 1, scene);
    if i < n - 1 {
      FallbackPassAt(n - 1, scene, i);
      ToriDemo.MulMonotone(i + 1, n - 1, len);
      SliceOfFirst(prefix, FallbackPass(n - 1, scene), i * len, i * len + len);
    } else {
      assert FallbackPasses(n, scene)[i * len ..] == FallbackPass(i, scene);
    }
  }

  lemma {:induction false} FallbackPassesLength(n: nat, scene: seq<GlOp>)
    ensures |FallbackPasses(n, scene)| == n * (5 + |scene|)
  {
    if n > 0 {
      FallbackPassesLength(n - 1, scene);
    }
  }

  /**
   * The fallback passes attach each layer below n exactly once, and no
   * other layer, provided the scene itself attaches none.
   */
  lemma {:induction false} FallbackAttachesEachLayerOnce(n: nat, scene: seq<GlOp>, a: Attachment, layer: nat)
    requires AttachLayer(a, layer) !in scene
    ensures Count(FallbackPasses(n, scene), AttachLayer(a, layer)) == if layer < n then 1 else 0
  {
    if n > 0 {
      var x := AttachLayer(a, layer);
      CountPositive(scene, x);
      FallbackAttachesEachLayerOnce(n - 1, scene, a, layer);
      PassCountFour(n - 1, x);
      PassesCount(n, scene, x);
    }
  }

  /** The count of a command in n passes: its count in n - 1 passes, plus in one header, plus in the scene. */
  lemma PassesCount(n: nat, scene: seq<GlOp>, x: GlOp)
    requires n > 0
    ensures Count(FallbackPasses(n, scene), x) ==
      Count(FallbackPasses(n - 1, scene), x) + Count(PassHeader(n - 1), x) + Count(scene, x)
  {
    CountAppend(FallbackPasses(n - 1, scene), FallbackPass(n - 1, scene), x);
    CountAppend(PassHeader(n - 1), scene, x);
  }

  /** Each fallback pass clears once and draws the scene once. */
  lemma {:induction false} FallbackRepeatsScene(n: nat, scene: seq<GlOp>, x: GlOp)
    requires x.DrawTorus? || x == ClearColor(Background)
    ensures Count(FallbackPasses(n, scene), x) ==
      n * ((if x == ClearColor(Background) then 1 else 0) + Count(scene, x))
  {
    if n > 0 {
      var perPass := (if x == ClearColor(Background) then 1 else 0) + Count(scene, x);
      FallbackRepeatsScene(n - 1, scene, x);
      HeaderClearsOnce(n - 1, x);
      PassesCount(n, scene, x);
      ScaleStep(n, Count(FallbackPasses(n, scene), x), Count(FallbackPasses(n - 1, scene), x),
        Count(PassHeader(n - 1), x), Count(scene, x), perPass);
    }
  }

  /** n passes of `perPass` each: n - 1 of them, plus the header and scene of the last. */
  lemma ScaleStep(n: nat, total: nat, previous: nat, header: nat, scene: nat, perPass: nat)
    requires n > 0 && total == previous + header + scene && perPass == header + scene
    requires previous == (n - 1) * perPass
    ensures total == n * perPass
  {
    ToriDemo.MulSucc(n - 1, n, perPass);
  }

  /** A pass header clears the colour layer once and draws nothing. */
  lemma HeaderClearsOnce(view: nat, x: GlOp)
    requires x.DrawTorus? || x == ClearColor(Background)
    ensures Count(PassHeader(view), x) == if x == ClearColor(Background) then 1 else 0
  {
    PassCountFour(view, x);
  }

  /**
   * Every render path clears the colour layers once per pass and draws the
   * scene once per pass: once per view in the software fallback, once for
   * single-pass stereo and multi-view rendering.
   */
  lemma ClearsAndDrawsPerPass(s: Settings, scene: seq<GlOp>, p: Primitive)
    requires ClearColor(Background) !in scene
    ensures Count(RenderToTextureOps(s, scene), ClearColor(Background)) == Passes(s)
    ensures Count(RenderToTextureOps(s, scene), DrawTorus(p)) == Passes(s) * Count(scene, DrawTorus(p))
  {
    CountPositive(scene, ClearColor(Background));
    RenderCount(s, scene, ClearColor(Background));
    RenderCount(s, scene, DrawTorus(p));
  }

  /** How often a clear or a draw occurs in the commands of `renderToTexture`: per pass, its count in one pass. */
  lemma RenderCount(s: Settings, scene: seq<GlOp>, x: GlOp)
    requires x.DrawTorus? || x == ClearColor(Background)
    ensures Count(RenderToTextureOps(s, scene), x) == Passes(s) * ((if x == ClearColor(Background) then 1 else 0) + Count(scene, x))
  {
    if s.renderMode == SoftwareFallback {
      FallbackRenderCount(s, scene, x);
    } else {
      OnePassRenderCount(s, scene, x);
    }
  }

  /** In the software fallback, a clear or a draw occurs once per view and pass. */
  lemma FallbackRenderCount(s: Settings, scene: seq<GlOp>, x: GlOp)
    requires s.renderMode == SoftwareFallback
    requires x.DrawTorus? || x == ClearColor(Background)
    ensures Count(RenderToTextureOps(s, scene), x) == ViewCount(s.views) * ((if x == ClearColor(Background) then 1 else 0) + Count(scene, x))
  {
    var bind := [BindFramebuffer(DrawAndRead, Offscreen)];
    CountSingle(bind[0], x);
    CountAppend(bind, FallbackPasses(ViewCount(s.views), scene), x);
    FallbackRepeatsScene(ViewCount(s.views), scene, x);
  }

  /** With single-pass stereo or multi-view rendering, a clear or a draw occurs as often as in one pass. */
  lemma OnePassRenderCount(s: Settings, scene: seq<GlOp>, x: GlOp)
    requires s.renderMode != SoftwareFallback
    requires x.DrawTorus? || x == ClearColor(Background)
    ensures Count(RenderToTextureOps(s, scene), x) == (if x == ClearColor(Background) then 1 else 0) + Count(scene, x)
  {
    var bind := [BindFramebuffer(DrawAndRead, Offscreen)];
    var views := ViewCount(s.views);
    var header := if s.renderMode == SinglePassStereo
      then [AttachAllLayers(ColorAttachment), AttachAllLayers(DepthAttachment), ClearColor(Background), ClearDepth(ClearDepthValue)]
      else [AttachMultiview(ColorAttachment, 0, views), AttachMultiview(DepthAttachment, 0, views), ClearColor(Background), ClearDepth(ClearDepthValue)];
    assert RenderToTextureOps(s, scene) == bind + (header + scene);
    CountSingle(bind[0], x);
    CountAppend(bind, header + scene, x);
    OnePassCount(header, scene, x);
  }

  /** One pass, a four-command header of attachments and clears before the scene, clears once. */
  lemma OnePassCount(header: seq<GlOp>, scene: seq<GlOp>, x: GlOp)
    requires |header| == 4 && header[2] == ClearColor(Background) && header[3] == ClearDepth(ClearDepthValue)
    requires !header[0].ClearColor? && !header[1].ClearColor? && !header[0].DrawTorus? && !header[1].DrawTorus?
    requires x.DrawTorus? || x == ClearColor(Background)
    ensures Count(header + scene, x) == (if x == ClearColor(Background) then 1 else 0) + Count(scene, x)
  {
    assert header == [header[0], header[1], header[2], header[3]];
    CountAppend(header, scene, x);
    CountFour(header[0], header[1], header[2], header[3], x);
  }

  /** The software fallback never renders more layers than the texture arrays have. */
  lemma FallbackLayersExist(s: Settings, scene: seq<GlOp>, a: Attachment, layer: nat)
    requires s.renderMode == SoftwareFallback && AttachLayer(a, layer) !in scene
    ensures AttachLayer(a, layer) in RenderToTextureOps(s, scene) <==> layer < ViewCount(s.views)
    ensures ViewCount(s.views) <= MaxViews
  {
    FallbackAttachesEachLayerOnce(ViewCount(s.views), scene, a, layer);
    CountPositive(RenderToTextureOps(s, scene), AttachLayer(a, layer));
    CountAppend([BindFramebuffer(DrawAndRead, Offscreen)], FallbackPasses(ViewCount(s.views), scene), AttachLayer(a, layer));
  }

  /* ---------------------------------------------------------------------
   * Blitting the layers to the caller's framebuffer
   * --------------------------------------------------------------------- */

  /** Layer k goes to column k % 2 and row k / 2 of the destination, each cell one view in size. */
  function BlitDestination(layer: nat, w: int, h: int): Rect
  {
    Rect((layer % 2) * w, (layer / 2) * h, (layer % 2 + 1) * w, (layer / 2 + 1) * h)
  }

  /** For layers 0 .. n-1 in order: attach the layer as blit source, copy its colour to its destination, nearest. */
  function LayerBlits(n: nat, w: int, h: int): seq<GlOp>
  {
    if n == 0 then [] else LayerBlits(n - 1, w, h) + LayerBlit(n - 1, w, h)
  }

  /** Attach layer k as the blit source and copy its colour to its destination, nearest-neighbour. */
  function LayerBlit(k: nat, w: int, h: int): seq<GlOp>
  {
    [AttachBlitLayer(ColorAttachment, k), Blit(Rect(0, 0, w, h), BlitDestination(k, w, h), ColorBuffer, Nearest)]
  }

  /** Everything `blitToFramebuffer` issues. */
  function BlitOps(views: Views, w: int, h: int, target: nat): seq<GlOp>
  {
    BlitHeader(target) + LayerBlits(ViewCount(views), w, h)
  }

  /** The blit of layer k copies the whole view (0, 0, w, h) of that layer to its destination. */
  lemma {:induction false} BlitOfLayer(n: nat, w: int, h: int, k: nat)
    requires k < n
    ensures |LayerBlits(n, w, h)| == 2 * n
    ensures LayerBlits(n, w, h)[2 * k] == AttachBlitLayer(ColorAttachment, k)
    ensures LayerBlits(n, w, h)[2 * k + 1] == Blit(Rect(0, 0, w, h), BlitDestination(k, w, h), ColorBuffer, Nearest)
  {
    if k < n - 1 {
      BlitOfLayer(n - 1, w, h, k);
    } else if n > 1 {
      BlitOfLayer(n - 1, w, h, 0);
    }
  }

  /** The blits of two and of four layers, grouped as the first row, then the second row. */
  lemma LayerBlitsUnrolled(w: int, h: int)
    ensures LayerBlits(2, w, h) == LayerBlit(0, w, h) + LayerBlit(1, w, h)
    ensures LayerBlits(4, w, h) == LayerBlit(0, w, h) + LayerBlit(1, w, h) + (LayerBlit(2, w, h) + LayerBlit(3, w, h))
  {
    assert LayerBlits(1, w, h) == LayerBlit(0, w, h);
    AppendAssoc(LayerBlits(2, w, h), LayerBlit(2, w, h), LayerBlit(3, w, h));
  }

  /** The blit of layer k written out, for the four layers `blitToFramebuffer` names. */
  lemma LayerBlitsWrittenOut(w: int, h: int)
    ensures LayerBlit(0, w, h) == [AttachBlitLayer(ColorAttachment, 0), Blit(Rect(0, 0, w, h), Rect(0, 0, w, h), ColorBuffer, Nearest)]
    ensures LayerBlit(1, w, h) == [AttachBlitLayer(ColorAttachment, 1), Blit(Rect(0, 0, w, h), Rect(w, 0, 2 * w, h), ColorBuffer, Nearest)]
    ensures LayerBlit(2, w, h) == [AttachBlitLayer(ColorAttachment, 2), Blit(Rect(0, 0, w, h), Rect(0, h, w, 2 * h), ColorBuffer, Nearest)]
    ensures LayerBlit(3, w, h) == [AttachBlitLayer(ColorAttachment, 3), Blit(Rect(0, 0, w, h), Rect(w, h, 2 * w, 2 * h), ColorBuffer, Nearest)]
  {
  }

  /** The commands of `blitToFramebuffer` before the first layer. */
  function BlitHeader(target: nat): seq<GlOp>
  {
    [BindFramebuffer(DrawOnly, Target(target)), BindFramebuffer(ReadOnly, BlitSource), AttachBlitLayer(DepthAttachment, 0)]
  }

  /** Appending the header and then two layer blits to a log gives the log followed by the two-view blit commands. */
  lemma TwoViewBlitLog(log: seq<GlOp>, w: int, h: int, target: nat)
    ensures log + BlitOps(TwoViews, w, h, target) ==
      log + BlitHeader(target) + LayerBlit(0, w, h) + LayerBlit(1, w, h)
  {
    LayerBlitsUnrolled(w, h);
    assert BlitOps(TwoViews, w, h, target) == BlitHeader(target) + (LayerBlit(0, w, h) + LayerBlit(1, w, h));
    AppendAssoc(log, BlitHeader(target), LayerBlit(0, w, h) + LayerBlit(1, w, h));
    AppendAssoc(log + BlitHeader(target), LayerBlit(0, w, h), LayerBlit(1, w, h));
  }

  /** Appending the header and then four layer blits to a log gives the log followed by the quad-view blit commands. */
  lemma QuadViewBlitLog(log: seq<GlOp>, w: int, h: int, target: nat)
    ensures log + BlitOps(QuadView, w, h, target) ==
      log + BlitHeader(target) + LayerBlit(0, w, h) + LayerBlit(1, w, h) + LayerBlit(2, w, h) + LayerBlit(3, w, h)
  {
    LayerBlitsUnrolled(w, h);
    var half := LayerBlit(0, w, h) + LayerBlit(1, w, h);
    var rest := LayerBlit(2, w, h) + LayerBlit(3, w, h);
    assert BlitOps(QuadView, w, h, target) == BlitHeader(target) + (half + rest);
    AppendAssoc(log, BlitHeader(target), half + rest);
    AppendAssoc(log + BlitHeader(target), half, rest);
    AppendAssoc(log + BlitHeader(target), LayerBlit(0, w, h), LayerBlit(1, w, h));
    AppendAssoc(log + BlitHeader(target) + half, LayerBlit(2, w, h), LayerBlit(3, w, h));
  }

  predicate Contains(r: Rect, x: int, y: int)
  {
    r.x0 <= x < r.x1 && r.y0 <= y < r.y1
  }

  /** Two rectangles share no pixel. */
  predicate Disjoint(a: Rect, b: Rect)
  {
    a.x1 <= b.x0 || b.x1 <= a.x0 || a.y1 <= b.y0 || b.y1 <= a.y0
  }

  /** Distinct layers land in rectangles that do not overlap. */
  lemma DestinationsDisjoint(j: nat, k: nat, w: nat, h: nat)
    requires j < MaxViews && k < MaxViews && j != k
    ensures Disjoint(BlitDestination(j, w, h), BlitDestination(k, w, h))
  {
  }

  /**
   * Every pixel of the window area covered by the views comes from exactly
   * one layer: layer (px / w) + 2 (py / h), read at the same offset within
   * that view.
   */
  lemma PixelSource(views: Views, w: nat, h: nat, px: nat, py: nat)
    requires w > 0 && h > 0
    requires px < 2 * w && py < ViewRows(views) * h
    ensures var k := px / w + 2 * (py / h);
      && k < ViewCount(views)
      && Contains(BlitDestination(k, w, h), px, py)
      && Contains(Rect(0, 0, w, h), px - (k % 2) * w, py - (k / 2) * h)
      && forall k' :: 0 <= k' < ViewCount(views) && Contains(BlitDestination(k', w, h), px, py) ==> k' == k
  {
    var col, row := px / w, py / h;
    ToriDemo.DivBounds(px, w);
    ToriDemo.DivBounds(py, h);
    ToriDemo.LessMeansRowBelow(1, col, w);
    ToriDemo.LessMeansRowBelow(ViewRows(views) - 1, row, h);
    assert (ViewRows(views) - 1) * h + h == ViewRows(views) * h;
    var k := col + 2 * row;
    assert k % 2 == col && k / 2 == row;
    assert (col + 1) * w == col * w + w;
    assert (row + 1) * h == row * h + h;
    forall k' | 0 <= k' < ViewCount(views)
      ensures Contains(BlitDestination(k', w, h), px, py) ==> k' == k
    {
      DestinationOfPixel(k', w, h, px, py);
    }
  }

  /** The only layer whose destination holds pixel (px, py) is layer px / w + 2 (py / h). */
  lemma DestinationOfPixel(j: nat, w: nat, h: nat, px: nat, py: nat)
    requires w > 0 && h > 0
    ensures Contains(BlitDestination(j, w, h), px, py) ==> j == px / w + 2 * (py / h)
  {
    assert (j % 2 + 1) * w == (j % 2) * w + w;
    assert (j / 2 + 1) * h == (j / 2) * h + h;
    DivUnique(j % 2, px, w);
    DivUnique(j / 2, py, h);
  }

  /** A quotient is the only q with q d <= n < q d + d. */
  lemma DivUnique(q: nat, n: nat, d: nat)
    requires d >= 1
    ensures q * d <= n < q * d + d ==> q == n / d
  {
    ToriDemo.DivBounds(n, d);
    ToriDemo.LessMeansRowBelow(q, n / d, d);
    ToriDemo.LessMeansRowBelow(n / d, q, d);
  }

  /** With the per-view size of `initTextures`, every destination lies inside the window. */
  lemma DestinationsInsideWindow(views: Views, width: nat, height: nat, k: nat)
    requires k < ViewCount(views)
    ensures var d := BlitDestination(k, PerViewWidth(width), PerViewHeight(views, height));
      0 <= d.x0 <= d.x1 <= width && 0 <= d.y0 <= d.y1 <= height
  {
    ViewsFitWindow(views, width, height);
  }

  /* ---------------------------------------------------------------------
   * A frame
   * --------------------------------------------------------------------- */

  /** The per-frame state `renderFrame` sets before the program: viewport, multisampling, patch size, uniforms. */
  function FrameStateOps(s: Settings, w: int, h: int): seq<GlOp>
  {
    [Viewport(w, h), SetMultisample(s.multisample)] +
    (if s.useTessellationShader then [SetPatchVertices(3)] else []) +
    [UpdatePerFrameUniforms(w, h), UploadSceneUniforms]
  }

  /** Use the selected program and upload the scene uniforms for it. */
  function ProgramOps(program: Option<ProgramDef>): seq<GlOp>
  {
    [UseProgram(program), UploadSceneUniforms]
  }

  /** What `renderFrame` issues once the arrays are ready: frame state, program, the render, the blit. */
  function DrawOps(s: Settings, w: int, h: int, target: nat, numberOfTori: nat, numX: nat, numYEstimate: nat,
                   program: Option<ProgramDef>): seq<GlOp>
  {
    FrameStateOps(s, w, h)
    + ProgramOps(program)
    + RenderToTextureOps(s, ToriDemo.RenderToriOps(numberOfTori, PrimitiveFor(s), numX, numYEstimate))
    + BlitOps(s.views, w, h, target)
  }

  /** Everything one `renderFrame` issues, in order. */
  function FrameOps(t: TextureState, s: Settings, firstRun: bool, width: nat, height: nat, target: nat,
                    numberOfTori: nat, numX: nat, numYEstimate: nat, program: Option<ProgramDef>): seq<GlOp>
  {
    InitTexturesOps(t, s, width, height, firstRun) +
    DrawOps(s, PerViewWidth(width), PerViewHeight(s.views, height), target, numberOfTori, numX, numYEstimate, program)
  }

  /** The first frame always (re)allocates the texture arrays before anything else. */
  lemma FirstFrameAllocates(t: TextureState, s: Settings, width: nat, height: nat, target: nat,
                            numberOfTori: nat, numX: nat, numYEstimate: nat, program: Option<ProgramDef>)
    ensures FrameOps(t, s, true, width, height, target, numberOfTori, numX, numYEstimate, program)[..2] ==
      ReallocationOps(s.multisample, PerViewWidth(width), PerViewHeight(s.views, height))
  {
  }

  class Demo {
    const pipeline: Pipeline
    var settings: Settings
    var perViewWidth: int
    var perViewHeight: int
    var texturesAreMultisample: bool
    /** The function-static `firstRun` of `renderFrame`. */
    var firstRun: bool
    var numberOfTori: nat
    /** The OpenGL commands issued so far. */
    var commands: seq<GlOp>

    function Textures(): TextureState
      reads this`perViewWidth, this`perViewHeight, this`texturesAreMultisample
    {
      TextureState(perViewWidth, perViewHeight, texturesAreMultisample)
    }

    /** A demo over a constructed pipeline, with the member initialisers' values. */
    constructor (pipeline: Pipeline)
      ensures this.pipeline == pipeline
      ensures settings == Default() && Textures() == InitialTextures
      ensures firstRun && numberOfTori == 16 && commands == []
    {
      this.pipeline := pipeline;
      settings := Default();
      perViewWidth, perViewHeight, texturesAreMultisample := 0, 0, false;
      firstRun := true;
      numberOfTori := 16;
      commands := [];
    }

    /** `validateSettings`: repair the settings in place, step by step. */
    method ValidateSettings()
      modifies this`settings
      ensures settings == Validated(old(settings), pipeline.support)
    {
      if settings.views == QuadView && settings.renderMode == SinglePassStereo {
        // single-pass stereo is limited to two views
        settings := settings.(views := TwoViews);
      }
      if settings.renderMode == SinglePassStereo && !pipeline.support.sps {
        settings := settings.(renderMode := SoftwareFallback);
      }
      if settings.renderMode == MultiViewRendering && !pipeline.support.mvr {
        settings := settings.(renderMode := SoftwareFallback);
      }
      if settings.renderMode == MultiViewRendering
         && (settings.useGeometryShader || settings.useTessellationShader)
         && !pipeline.support.mvrTessellationGeometryShader
      {
        settings := settings.(useGeometryShader := false, useTessellationShader := false);
      }
    }

    /**
     * `initTextures`: derive the per-view size from the window, and unless
     * forced, return early when neither it nor the multisample format changed;
     * otherwise free and reallocate the arrays.
     */
    method InitTextures(width: nat, height: nat, forceReInit: bool)
      modifies this`perViewWidth, this`perViewHeight, this`texturesAreMultisample, this`commands
      ensures Textures() == TexturesAfter(old(Textures()), settings, width, height, forceReInit)
      ensures commands == old(commands) + InitTexturesOps(old(Textures()), settings, width, height, forceReInit)
    {
      var oldWidth := perViewWidth;
      var oldHeight := perViewHeight;
      perViewWidth := width / 2;
      if settings.views == QuadView {
        perViewHeight := height / 2;
      } else {
        perViewHeight := height;
      }
      if !forceReInit {
        if oldWidth == perViewWidth && oldHeight == perViewHeight && settings.multisample == texturesAreMultisample {
          return;
        }
      }
      commands := commands + [DeleteTextureArrays];
      commands := commands + [AllocateTextureArrays(settings.multisample, perViewWidth, perViewHeight, MaxViews)];
      texturesAreMultisample := settings.multisample;
    }

    /**
     * `renderToTexture`: render the scene into the array layers, one layer
     * per pass in the software fallback, all layers at once otherwise.
     * `numX` and `numYEstimate` are the grid sizing `renderTori` derives in
     * floating point.
     */
    method RenderToTexture(numX: nat, numYEstimate: nat)
      modifies this`commands
      ensures commands == old(commands) +
        RenderToTextureOps(settings, ToriDemo.RenderToriOps(numberOfTori, PrimitiveFor(settings), numX, numYEstimate))
    {
      ghost var start := commands;
      var viewsThisFrame := 2;
      if settings.views == QuadView {
        viewsThisFrame := 4;
      }
      commands := commands + [BindFramebuffer(DrawAndRead, Offscreen)];
      var primitiveMode := Triangles;
      if settings.useTessellationShader {
        primitiveMode := Patches;
      }
      ghost var scene := ToriDemo.RenderToriOps(numberOfTori, primitiveMode, numX, numYEstimate);
      ghost var head := commands;
      ghost var rest := RenderToTextureOps(settings, scene)[1..];
      assert primitiveMode == PrimitiveFor(settings) && viewsThisFrame == ViewCount(settings.views);
      assert head == start + [BindFramebuffer(DrawAndRead, Offscreen)];
      assert RenderToTextureOps(settings, scene) == [BindFramebuffer(DrawAndRead, Offscreen)] + rest;
      if settings.renderMode == SoftwareFallback {
        assert rest == FallbackPasses(viewsThisFrame, scene);
        RenderLayerByLayer(viewsThisFrame, primitiveMode, numX, numYEstimate);
      } else if settings.renderMode == SinglePassStereo {
        var attach := [AttachAllLayers(ColorAttachment), AttachAllLayers(DepthAttachment)];
        var clear := [ClearColor(Background), ClearDepth(ClearDepthValue)];
        assert rest == attach + clear + scene;
        commands := commands + attach;
        commands := commands + clear;
        var tori := ToriDemo.RenderTori(numberOfTori, primitiveMode, numX, numYEstimate);
        commands := commands + tori;
        AppendAssoc(head, attach, clear);
        AppendAssoc(head, attach + clear, scene);
      } else {
        var attach := [AttachMultiview(ColorAttachment, 0, viewsThisFrame), AttachMultiview(DepthAttachment, 0, viewsThisFrame)];
        var clear := [ClearColor(Background), ClearDepth(ClearDepthValue)];
        assert rest == attach + clear + scene;
        commands := commands + attach;
        commands := commands + clear;
        var tori := ToriDemo.RenderTori(numberOfTori, primitiveMode, numX, numYEstimate);
        commands := commands + tori;
        AppendAssoc(head, attach, clear);
        AppendAssoc(head, attach + clear, scene);
      }
      assert commands == head + rest;
      AppendAssoc(start, [BindFramebuffer(DrawAndRead, Offscreen)], rest);
    }

    /** The software-fallback loop of `renderToTexture`: one pass per view, each into its own layer. */
    method RenderLayerByLayer(viewsThisFrame: nat, primitiveMode: Primitive, numX: nat, numYEstimate: nat)
      modifies this`commands
      ensures commands == old(commands) +
        FallbackPasses(viewsThisFrame, ToriDemo.RenderToriOps(numberOfTori, primitiveMode, numX, numYEstimate))
    {
      ghost var scene := ToriDemo.RenderToriOps(numberOfTori, primitiveMode, numX, numYEstimate);
      for i := 0 to viewsThisFrame
        invariant commands == old(commands) + FallbackPasses(i, scene)
      {
        ghost var before := commands;
        commands := commands + [AttachLayer(ColorAttachment, i), AttachLayer(DepthAttachment, i)];
        commands := commands + [ClearColor(Background), ClearDepth(ClearDepthValue)];
        commands := commands + [SetFallbackId(i)];
        assert commands == before + PassHeader(i);
        var tori := ToriDemo.RenderTori(numberOfTori, primitiveMode, numX, numYEstimate);
        commands := commands + tori;
        assert commands == old(commands) + (FallbackPasses(i, scene) + (PassHeader(i) + scene));
      }
    }

    /** `blitToFramebuffer`: copy each rendered layer into its half or quadrant of `target`. */
    method BlitToFramebuffer(target: nat)
      modifies this`commands
      ensures commands == old(commands) + BlitOps(settings.views, perViewWidth, perViewHeight, target)
    {
      var w, h := perViewWidth, perViewHeight;
      LayerBlitsWrittenOut(w, h);
      TwoViewBlitLog(commands, w, h, target);
      QuadViewBlitLog(commands, w, h, target);
      commands := commands + [BindFramebuffer(DrawOnly, Target(target)), BindFramebuffer(ReadOnly, BlitSource)];
      commands := commands + [AttachBlitLayer(DepthAttachment, 0)];
      assert commands == old(commands) + BlitHeader(target);
      if settings.views == TwoViews {
        commands := commands + [AttachBlitLayer(ColorAttachment, 0), Blit(Rect(0, 0, w, h), Rect(0, 0, w, h), ColorBuffer, Nearest)];
        commands := commands + [AttachBlitLayer(ColorAttachment, 1), Blit(Rect(0, 0, w, h), Rect(w, 0, 2 * w, h), ColorBuffer, Nearest)];
      } else {
        commands := commands + [AttachBlitLayer(ColorAttachment, 0), Blit(Rect(0, 0, w, h), Rect(0, 0, w, h), ColorBuffer, Nearest)];
        commands := commands + [AttachBlitLayer(ColorAttachment, 1), Blit(Rect(0, 0, w, h), Rect(w, 0, 2 * w, h), ColorBuffer, Nearest)];
        commands := commands + [AttachBlitLayer(ColorAttachment, 2), Blit(Rect(0, 0, w, h), Rect(0, h, w, 2 * h), ColorBuffer, Nearest)];
        commands := commands + [AttachBlitLayer(ColorAttachment, 3), Blit(Rect(0, 0, w, h), Rect(w, h, 2 * w, 2 * h), ColorBuffer, Nearest)];
      }
    }

    /**
     * `renderFrame`: validate, (re)allocate the arrays (forced on the first
     * frame only), set the frame state, select and use the program, render
     * into the arrays and blit them to `target`.
     */
    method RenderFrame(width: nat, height: nat, target: nat, numX: nat, numYEstimate: nat)
      requires pipeline.Valid()
      modifies this`settings, this`perViewWidth, this`perViewHeight, this`texturesAreMultisample
      modifies this`firstRun, this`commands, pipeline`settings, pipeline`program
      ensures pipeline.support == old(pipeline.support) && pipeline.Valid()
      ensures settings == Validated(old(settings), pipeline.support)
      ensures !firstRun
      ensures Textures() == TexturesAfter(old(Textures()), settings, width, height, old(firstRun))
      ensures pipeline.settings == settings
      ensures pipeline.program == pipeline.programs.Slot(GroupFor(settings), StageFor(settings))
      ensures pipeline.program.Some?
      ensures commands == old(commands) + FrameOps(old(Textures()), settings, old(firstRun), width, height, target,
                                                   numberOfTori, numX, numYEstimate, pipeline.program)
    {
      PrepareFrame(width, height);
      ValidatedSelectsCreated(old(settings), pipeline.support);
      DrawFrame(target, numX, numYEstimate);
      AppendAssoc(old(commands), InitTexturesOps(old(Textures()), settings, width, height, old(firstRun)),
        DrawOps(settings, perViewWidth, perViewHeight, target, numberOfTori, numX, numYEstimate, pipeline.program));
    }

    /** The first half of `renderFrame`: validate the settings, then (re)allocate the arrays, forced on the first frame only. */
    method PrepareFrame(width: nat, height: nat)
      modifies this`settings, this`perViewWidth, this`perViewHeight, this`texturesAreMultisample
      modifies this`firstRun, this`commands
      ensures settings == Validated(old(settings), pipeline.support)
      ensures !firstRun
      ensures Textures() == TexturesAfter(old(Textures()), settings, width, height, old(firstRun))
      ensures commands == old(commands) + InitTexturesOps(old(Textures()), settings, width, height, old(firstRun))
    {
      ValidateSettings();
      InitTextures(width, height, firstRun);
      firstRun := false;
    }

    /** The drawing half of `renderFrame`, once the settings are valid and the arrays allocated. */
    method DrawFrame(target: nat, numX: nat, numYEstimate: nat)
      modifies this`commands, pipeline`settings, pipeline`program
      ensures pipeline.settings == settings
      ensures pipeline.program == pipeline.programs.Slot(GroupFor(settings), StageFor(settings))
      ensures commands == old(commands) +
        DrawOps(settings, perViewWidth, perViewHeight, target, numberOfTori, numX, numYEstimate, pipeline.program)
    {
      SetFrameState();
      UseSelectedProgram();
      RenderToTexture(numX, numYEstimate);
      BlitToFramebuffer(target);
      ghost var state := FrameStateOps(settings, perViewWidth, perViewHeight);
      ghost var program := ProgramOps(pipeline.program);
      ghost var render := RenderToTextureOps(settings, ToriDemo.RenderToriOps(numberOfTori, PrimitiveFor(settings), numX, numYEstimate));
      ghost var blit := BlitOps(settings.views, perViewWidth, perViewHeight, target);
      AppendAssoc(old(commands), state, program);
      AppendAssoc(old(commands), state + program, render);
      AppendAssoc(old(commands), state + program + render, blit);
    }

    /** The frame state of `renderFrame`: viewport, multisampling, patch size for tessellation, per-frame uniforms. */
    method SetFrameState()
      modifies this`commands
      ensures commands == old(commands) + FrameStateOps(settings, perViewWidth, perViewHeight)
    {
      commands := commands + [Viewport(perViewWidth, perViewHeight)];
      commands := commands + [SetMultisample(settings.multisample)];
      if settings.useTessellationShader {
        commands := commands + [SetPatchVertices(3)];
      }
      // updatePerFrameUniforms ends with its own upload of the scene uniforms
      commands := commands + [UpdatePerFrameUniforms(perViewWidth, perViewHeight), UploadSceneUniforms];
    }

    /** Hand the settings to the pipeline, use the program it selects, and upload the scene uniforms. */
    method UseSelectedProgram()
      modifies this`commands, pipeline`settings, pipeline`program
      ensures pipeline.settings == settings
      ensures pipeline.program == pipeline.programs.Slot(GroupFor(settings), StageFor(settings))
      ensures commands == old(commands) + ProgramOps(pipeline.program)
    {
      pipeline.SetSettings(settings);
      commands := commands + [UseProgram(pipeline.program)];
      commands := commands + [UploadSceneUniforms];
    }
  }
}
