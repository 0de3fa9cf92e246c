# Multi-view rendering demo: a verified model of its frame logic

This project models the decision and bookkeeping layer of the OpenGL
multi-view rendering sample (`gl_multi_view_rendering`):

- the settings record (`MVRSettings`), its two enums and its defaults;
- `MVRDemo::validateSettings`, which repairs the settings in place against
  the probed hardware capabilities;
- `MVRDemo::initTextures`, which sizes the per-view texture arrays from the
  window and decides between a no-op and a reallocation;
- `MVRDemo::renderToTexture`, which renders the scene into the array layers
  along one of three paths (software fallback: one pass per layer;
  single-pass stereo; multi-view rendering);
- `MVRDemo::blitToFramebuffer`, which copies layer k to its half or
  quadrant of the caller's framebuffer;
- `MVRDemo::renderFrame`, which orders all of the above and forces the
  reallocation on the first frame only;
- the `MVRPipeline` constructor's extension scan, `initShaders` and
  `setSettings`, which compile the shader variants and select one;
- the integer side of `GLToriDemo`: the row-major torus grid walk of
  `renderTori` and the framebuffer scaling.

Every OpenGL call is modelled as a value of `Gl.GlOp` appended to an
abstract command log (`MvrDemo.Demo.commands`), so the order, number and
arguments of the calls can be stated and proved. The demo and the pipeline
are classes whose methods update their fields in place. Each method is
proved against a pure function of the old state. The properties the
program promises are then proved about those functions as lemmas.

Files:

- `gl.dfy`: the command vocabulary and the occurrence count `Count`.
- `mvr_settings.dfy`: the settings record.
- `mvr_pipeline.dfy`: the extension probe, the shader variants and the program selection.
- `tori_demo.dfy`: the framebuffer scaling and the torus grid.
- `mvr_demo.dfy`: validation, texture arrays, rendering, blitting and the frame.

## Model

| member | source | states |
|---|---|---|
| MvrSettings.ViewCount | MVRDemo.cpp:155-159 | a frame has four views for the quad view and two otherwise, never more than `MAX_VIEWS` |
| MvrPipeline.ProbeExtensions | MVRPipeline.cpp:30-56 | the scan sets exactly the flags whose extension name occurs verbatim in the enumerated list |
| MvrPipeline.ProbeOnlySetsFlags | MVRPipeline.cpp:32-56 | listing more extensions never clears a flag |
| MvrPipeline.ProbeIgnoresOrderAndDuplicates | MVRPipeline.cpp:32-56 | two lists with the same names probe to the same flags, whatever their order and repetitions |
| MvrPipeline.MultiviewAloneIsNotEnough | MVRPipeline.cpp:39-43 | multi-view support keys on "GL_OVR_multiview2": "GL_OVR_multiview" alone does not set it |
| MvrPipeline.InitShaders | MVRPipeline.cpp:85-114 | the plain program is always created with the general define followed by the group's defines; the geometry and tessellation variants are created iff they are not excluded, and otherwise the slots keep what they held |
| MvrPipeline.CreatedSlots | MVRPipeline.cpp:68-74 | after construction a slot holds a program iff it is in the software or single-pass-stereo group, or multi-view is supported and the slot is the plain one or the tessellation/geometry capability is present |
| MvrPipeline.CreatedProgramDefines | MVRPipeline.cpp:87-113 | every created program links its slot's stages and carries "#define USE_MVR_SCENE_DATA\n" followed by its group's defines |
| MvrPipeline.Pipeline.constructor | MVRPipeline.cpp:25-83 | the flags are the probe's, the programs are those the probe calls for, and the initial program is the software group's plain program |
| MvrPipeline.Pipeline.SetSettings | MVRPipeline.cpp:118-160 | the settings are stored verbatim and the program is the slot of the group chosen by the mode (and view count for multi-view) and the stage combination chosen by the two toggles |
| MvrPipeline.SelectedStagesMatchToggles | MVRPipeline.cpp:144-159 | the selected program links a geometry shader iff one is requested and tessellation shaders iff they are requested, and always vertex and fragment shaders |
| MvrPipeline.SelectedGroupMatchesMode | MVRPipeline.cpp:122-141 | a multi-view group is selected iff the mode is multi-view rendering, and its defines name that path and the frame's view count |
| MvrDemo.Validated | MVRDemo.cpp:414-442 | single-pass stereo survives iff requested and supported, multi-view iff requested and supported, otherwise the fallback; single-pass stereo forces two views; the toggles are cleared together exactly for multi-view without tessellation/geometry support; multisampling is untouched |
| MvrDemo.ValidatedIsIdempotent | MVRDemo.cpp:414-442 | validating validated settings changes nothing |
| MvrDemo.ValidatedOnlyDowngrades | MVRDemo.cpp:414-442 | validation only moves the mode to the fallback, the views to two and the toggles to off |
| MvrDemo.DefaultIsValid | MVRSettings.h:26-39 | the default record is left unchanged by validation for every combination of capabilities |
| MvrDemo.ValidatedSelectsCreated | MVRPipeline.cpp:144-159 | validated settings always select a slot the constructor created a program for |
| MvrDemo.Demo.ValidateSettings | MVRDemo.cpp:414-442 | the in-place repair leaves exactly the validated settings |
| MvrDemo.TexturesMatchRequest | MVRDemo.cpp:54-97 | after `initTextures` the arrays have the requested per-view size and format, and the call is a no-op iff it is not forced and neither size nor format changed |
| MvrDemo.RepeatedInitIsNoOp | MVRDemo.cpp:64-71 | a second unforced call with the same window and settings reallocates nothing and changes nothing |
| MvrDemo.ViewsFitWindow | MVRDemo.cpp:54-62 | two view columns, and two view rows for the quad view, fit inside the window and miss at most one pixel column |
| MvrDemo.Demo.InitTextures | MVRDemo.cpp:47-100 | the new remembered size and format and the commands issued (delete, then allocate `MAX_VIEWS` layers) are those of the reallocation decision |
| MvrDemo.FallbackPassAt | MVRDemo.cpp:176-187 | fallback pass i sits at the i-th place of the log: attach layer i as colour and depth, clear, set fallback id i, draw the scene |
| MvrDemo.FallbackAttachesEachLayerOnce | MVRDemo.cpp:176-187 | the fallback attaches each layer below the view count exactly once and no other layer |
| MvrDemo.FallbackLayersExist | MVRDemo.cpp:176-179 | in the fallback a layer is attached iff it is below the view count, which never exceeds `MAX_VIEWS` |
| MvrDemo.ClearsAndDrawsPerPass | MVRDemo.cpp:174-207 | every path clears the colour layers once per pass and draws the scene once per pass: once per view in the fallback, once otherwise |
| MvrDemo.RenderCount | MVRDemo.cpp:174-207 | a clear or a draw occurs, per pass, as often as in one pass |
| MvrDemo.FallbackRenderCount | MVRDemo.cpp:174-187 | in the fallback a clear or a draw occurs once per view times its count in one pass |
| MvrDemo.OnePassRenderCount | MVRDemo.cpp:189-207 | with single-pass stereo or multi-view a clear or a draw occurs as often as in one pass |
| MvrDemo.FallbackRepeatsScene | MVRDemo.cpp:176-187 | n fallback passes clear n times and draw the scene n times |
| MvrDemo.Demo.RenderToTexture | MVRDemo.cpp:153-212 | the commands issued are the bind of the offscreen framebuffer followed by the mode's passes over the scene, drawn with patches iff tessellation is on |
| MvrDemo.Demo.RenderLayerByLayer | MVRDemo.cpp:176-187 | the loop issues the fallback passes for views 0 to count-1 in increasing order |
| MvrDemo.BlitOfLayer | MVRDemo.cpp:223-248 | layer k is attached as the blit source and its whole view (0, 0, w, h) is copied, colour only and nearest, to its destination |
| MvrDemo.LayerBlitsWrittenOut | MVRDemo.cpp:225-247 | the destinations of layers 0 to 3 are the first and second column of the first row, then of the second row (y from h to 2h) |
| MvrDemo.DestinationsDisjoint | MVRDemo.cpp:223-248 | distinct layers are copied to rectangles that share no pixel |
| MvrDemo.PixelSource | MVRDemo.cpp:223-248 | every pixel of the views' area comes from exactly one layer, read at the same offset within the view |
| MvrDemo.DestinationsInsideWindow | MVRDemo.cpp:54-62 | with the per-view size of `initTextures` every destination lies inside the window |
| MvrDemo.Demo.BlitToFramebuffer | MVRDemo.cpp:214-249 | the commands issued are the binds, the depth attachment and one layer blit per view, in layer order |
| MvrDemo.FirstFrameAllocates | MVRDemo.cpp:113-117 | the first frame always starts by freeing and reallocating the arrays |
| MvrDemo.Demo.constructor | MVRDemo.h:63-67 | a new demo has the default settings, zero per-view sizes, single-sampled arrays, the first-run flag set and sixteen tori |
| MvrDemo.Demo.RenderFrame | MVRDemo.cpp:111-151 | the settings become the validated ones, the arrays are (re)allocated as decided (forced on the first frame only), the pipeline uses the slot the settings select and it exists, and the commands are those of the whole frame in order |
| MvrDemo.Demo.PrepareFrame | MVRDemo.cpp:113-117 | validation, then the texture update forced by the first-run flag, which is then cleared |
| MvrDemo.Demo.DrawFrame | MVRDemo.cpp:129-150 | frame state, program, the render into the arrays and the blit, in that order |
| MvrDemo.Demo.SetFrameState | MVRDemo.cpp:129-145 | the viewport, the multisample switch, the patch size 3 only for tessellation, and the per-frame uniforms |
| MvrDemo.Demo.UseSelectedProgram | MVRDemo.cpp:146-148 | the pipeline takes the settings and uses the program slot they select, then uploads the scene uniforms |
| ToriDemo.FramebufferExtent | GLToriDemo.h:92-93 | the framebuffer extent is the window extent divided by the scaling, rounded up, and equal to it for scaling 1 |
| ToriDemo.FramebufferExtentBounds | GLToriDemo.h:92-93 | the extent never exceeds the window and is at least 1 for a non-empty window |
| ToriDemo.RenderTori | GLToriDemo.h:173-237 | the commands issued are the buffer state, then the tori drawn in increasing order, then the unset |
| ToriDemo.GridRowsBump | GLToriDemo.h:188-191 | the row estimate is raised by one exactly when the grid cannot hold every torus |
| ToriDemo.ToriDrawnCount | GLToriDemo.h:205-232 | at most `numberOfTori` tori are drawn, and exactly that many iff the grid has enough cells |
| ToriDemo.TorusSequenceAt | GLToriDemo.h:205-232 | torus k sits at the k-th place: row k / numX, column k % numX, its rotation and colour, uploaded before it is drawn |
| ToriDemo.NextTorus | GLToriDemo.h:207-232 | the torus at cell (i, j) is torus i numX + j, with the rotation sign of column j and the colour of its index |
| ToriDemo.DrawsPerTorus | GLToriDemo.h:217-230 | one draw per torus, with the requested primitive |
| ToriDemo.DrawsUseOnePrimitive | GLToriDemo.h:230 | no draw uses any other primitive |

## Left out

- OpenGL itself: each call is a `GlOp` value in a log; texture objects, framebuffer objects and uniform buffers are not modelled.
- Floating point: the view and projection matrices of `updatePerFrameUniforms`, the model matrix built from scale, translation and rotation, the torus scale and spacing. The model matrix is kept as the grid cell and rotation sign that determine it. The colours and depth are kept as the constants the program writes.
- `ToriDemo.RenderTori`: `numX` and the first row estimate come from `ceil(sqrt(num * aspect))` and a float division; they are taken as parameters, and the `numX * numY < num` test is made on integers.
- `MvrDemo.Demo.RenderFrame`: the GPU profiler section (MVRDemo.cpp:119-127) is not modelled: its timer queries are not part of the command log.
- `MvrDemo.Demo.RenderFrame`: the source's body is one function; the model splits it into `PrepareFrame` and `DrawFrame`, and `DrawFrame` into `SetFrameState` and `UseSelectedProgram`, with the same commands in the same order.
- `MvrDemo.Demo.InitTextures`: the conversion of the unsigned window size to `GLsizei` and the products `2 * w` in the blit rectangles are unbounded integers; they only wrap for windows wider than 2^30 pixels.
- `MvrDemo.Demo`: the function-static `firstRun` of `renderFrame` is a field of the demo, which is equivalent for the one demo a process creates.
- `GLToriDemo` is a base class of `MVRDemo`; the model keeps its two members in their own module and passes the demo's `numberOfTori` to them.
- The capability `supportMVR_texture_multisample` is probed but read by none of the modelled operations, and the timer-query flag only gates the profiler section left out above.
- The shader-program manager: a program is modelled as the request made to it (stages and defines). Compilation, its failure, and reloading are not modelled.
- The user interface (`processUI`, the framebuffer-scaling slider that keeps the scaling in 1 to 16), `begin`, `end`, `think`, `initFramebuffers`, the camera, and `main.cpp`.
