/**
 * The vocabulary of the abstract OpenGL command log.
 *
 * The demo drives the GPU through OpenGL calls whose effects live in the
 * driver.  The model replaces every such call by a value of `GlOp` appended
 * to a log, so that the order, number and arguments of the calls can be
 * stated and proved about.  Matrix contents (floating point) are abstracted
 * to the integer data that determines them.
 */
module Gl {

  datatype Option<T> = None | Some(value: T)

  /** Shader stages a program is linked from. */
  datatype ShaderStage = Vertex | TessControl | TessEvaluation | Geometry | Fragment

  /**
   * A program as requested from the shader-program manager: the stages it
   * links and the preprocessor defines every stage is compiled with.  The
   * manager's opaque program handle is modelled by this request itself.
   */
  datatype ProgramDef = ProgramDef(stages: seq<ShaderStage>, defines: string)

  /** Framebuffer objects the demo binds. `Target(id)` is the caller's framebuffer. */
  datatype Framebuffer = Offscreen | BlitSource | Target(id: nat)

  /** `GL_FRAMEBUFFER`, `GL_DRAW_FRAMEBUFFER`, `GL_READ_FRAMEBUFFER`. */
  datatype FramebufferTarget = DrawAndRead | DrawOnly | ReadOnly

  /** The colour attachment is always the colour texture array, the depth one the depth texture array. */
  datatype Attachment = ColorAttachment | DepthAttachment

  /** `GL_TRIANGLES` or `GL_PATCHES`. */
  datatype Primitive = Triangles | Patches

  /** The buffer mask and filter of `glBlitFramebuffer`. */
  datatype BufferMask = ColorBuffer | DepthBuffer
  datatype Filter = Nearest | Linear

  /** A rectangle as `glBlitFramebuffer` takes it: corners (x0, y0) and (x1, y1), upper bounds exclusive. */
  datatype Rect = Rect(x0: int, y0: int, x1: int, y1: int)

  datatype Rgb = Rgb(r: real, g: real, b: real)
  datatype Rgba = Rgba(r: real, g: real, b: real, a: real)

  /** The background every render path clears the colour layers to, and the depth it clears to. */
  const Background: Rgba := Rgba(118.0 / 255.0, 185.0 / 255.0, 0.0, 0.0)
  const ClearDepthValue: real := 1.0

  datatype GlOp =
    // framebuffer binding and attachment of the intermediate texture arrays
    | BindFramebuffer(target: FramebufferTarget, fb: Framebuffer)
    | AttachLayer(attachment: Attachment, layer: nat)                      // glFramebufferTextureLayer
    | AttachAllLayers(attachment: Attachment)                               // glFramebufferTexture
    | AttachMultiview(attachment: Attachment, baseView: nat, numViews: nat) // glFramebufferTextureMultiviewOVR
    | AttachBlitLayer(attachment: Attachment, layer: nat)                   // glNamedFramebufferTextureLayer on the blit source
    | ClearColor(rgba: Rgba)
    | ClearDepth(depth: real)
    | Blit(src: Rect, dst: Rect, mask: BufferMask, filter: Filter)
    // per-frame state
    | Viewport(width: int, height: int)
    | SetMultisample(enabled: bool)
    | SetPatchVertices(count: nat)
    | UpdatePerFrameUniforms(width: int, height: int)   // view and projection matrices, computed in floating point
    | UploadSceneUniforms
    | UseProgram(program: Option<ProgramDef>)
    | SetFallbackId(view: nat)                          // glUniform1i(OFFSET_FALLBACK_ID, view)
    // texture arrays
    | DeleteTextureArrays
    | AllocateTextureArrays(multisample: bool, width: int, height: int, layers: nat)
    // drawing the tori
    | SetBufferState
    | UnsetBufferState
    | SetModelMatrix(row: nat, column: nat, rotationDegrees: int)
    | SetObjectColor(rgb: Rgb)
    | UpdateObjectUniforms
    | DrawTorus(primitive: Primitive)

  /** Regrouping appended logs. */
  lemma AppendAssoc(a: seq<GlOp>, b: seq<GlOp>, c: seq<GlOp>)
    ensures (a + b) + c == a + (b + c)
  {
  }

  /** A slice lying inside the first of two appended logs is a slice of that log. */
  lemma SliceOfFirst(a: seq<GlOp>, b: seq<GlOp>, lo: nat, hi: nat)
    requires lo <= hi <= |a|
    ensures (a + b)[lo..hi] == a[lo..hi]
  {
  }

  /** How many times command `x` occurs in the log `ops`. */
  function Count(ops: seq<GlOp>, x: GlOp): (c: nat)
    ensures c <= |ops|
  {
    if |ops| == 0 then 0 else (if ops[0] == x then 1 else 0) + Count(ops[1..], x)
  }

  /** A command occurs in a log exactly when its count there is positive. */
  lemma {:induction false} CountPositive(ops: seq<GlOp>, x: GlOp)
    ensures Count(ops, x) > 0 <==> x in ops
  {
    if |ops| > 0 {
      CountPositive(ops[1..], x);
      assert ops == [ops[0]] + ops[1..];
    }
  }

  /** Counting distributes over concatenation of logs. */
  lemma {:induction false} CountAppend(a: seq<GlOp>, b: seq<GlOp>, x: GlOp)
    ensures Count(a + b, x) == Count(a, x) + Count(b, x)
  {
    if |a| > 0 {
      CountAppend(a[1..], b, x);
      assert (a + b)[1..] == a[1..] + b;
    } else {
      assert a + b == b;
    }
  }

  /** A one-command log counts `x` once if it is `x`, and not at all otherwise. */
  lemma CountSingle(y: GlOp, x: GlOp)
    ensures Count([y], x) == if y == x then 1 else 0
  {
    assert [y][1..] == [];
  }

  /** The count of a command in a four-command log. */
  lemma CountFour(a: GlOp, b: GlOp, c: GlOp, d: GlOp, x: GlOp)
    ensures Count([a, b, c, d], x) ==
      (if a == x then 1 else 0) + (if b == x then 1 else 0) + (if c == x then 1 else 0) + (if d == x then 1 else 0)
  {
    assert [a, b, c, d] == [a] + ([b] + ([c] + [d]));
    CountAppend([a], [b] + ([c] + [d]), x);
    CountAppend([b], [c] + [d], x);
    CountAppend([c], [d], x);
    CountSingle(a, x);
    CountSingle(b, x);
    CountSingle(c, x);
    CountSingle(d, x);
  }
}
