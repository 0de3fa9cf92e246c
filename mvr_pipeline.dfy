/**
 * The multi-view pipeline (MVRPipeline.cpp): probes the driver's extension
 * list for five capabilities, compiles the shader variants for each render
 * path, and picks the program slot that matches the current settings.
 */
module MvrPipeline {
  import opened Gl
  import opened MvrSettings

  /* ---------------------------------------------------------------------
   * Capability probe
   * --------------------------------------------------------------------- */

  const SpsExtension: string := "GL_NV_stereo_view_rendering"
  const MvrExtension: string := "GL_OVR_multiview2"
  const MvrTextureMultisampleExtension: string := "GL_EXT_multiview_texture_multisample"
  const MvrTessellationGeometryShaderExtension: string := "GL_EXT_multiview_tessellation_geometry_shader"
  const MvrTimerQueryExtension: string := "GL_EXT_multiview_timer_query"

  /** The five `support...` flags of the pipeline. */
  datatype Support = Support(
    sps: bool,
    mvr: bool,
    mvrTextureMultisample: bool,
    mvrTimerQuery: bool,
    mvrTessellationGeometryShader: bool)

  /** Nothing supported: the flags before the probe. */
  const NoSupport: Support := Support(false, false, false, false, false)

  /** Reference definition of the probe: a flag holds iff its exact extension name is listed. */
  function ProbeSupport(extensions: seq<string>): Support
  {
    Support(
      sps := SpsExtension in extensions,
      mvr := MvrExtension in extensions,
      mvrTextureMultisample := MvrTextureMultisampleExtension in extensions,
      mvrTimerQuery := MvrTimerQueryExtension in extensions,
      mvrTessellationGeometryShader := MvrTessellationGeometryShaderExtension in extensions)
  }

  /**
   * The scan of the constructor: walk the enumerated extension names and set
   * a flag whenever a name equals that flag's extension exactly.
   */
  method ProbeExtensions(extensions: seq<string>) returns (support: Support)
    ensures support == ProbeSupport(extensions)
  {
    support := NoSupport;
    for i := 0 to |extensions|
      invariant support == ProbeSupport(extensions[..i])
    {
      var name := extensions[i];
      assert extensions[..i + 1] == extensions[..i] + [name];
      if name == SpsExtension {
        support := support.(sps := true);
      }
      if name == MvrExtension {
        // GL_OVR_multiview2 requires GL_OVR_multiview
        support := support.(mvr := true);
      }
      if name == MvrTextureMultisampleExtension {
        support := support.(mvrTextureMultisample := true);
      }
      if name == MvrTessellationGeometryShaderExtension {
        support := support.(mvrTessellationGeometryShader := true);
      }
      if name == MvrTimerQueryExtension {
        support := support.(mvrTimerQuery := true);
      }
    }
    assert extensions[..|extensions|] == extensions;
  }

  /** Listing more extensions never clears a flag: the scan only ever sets flags. */
  lemma ProbeOnlySetsFlags(extensions: seq<string>, more: seq<string>)
    ensures var before, after := ProbeSupport(extensions), ProbeSupport(extensions + more);
      && (before.sps ==> after.sps)
      && (before.mvr ==> after.mvr)
      && (before.mvrTextureMultisample ==> after.mvrTextureMultisample)
      && (before.mvrTimerQuery ==> after.mvrTimerQuery)
      && (before.mvrTessellationGeometryShader ==> after.mvrTessellationGeometryShader)
  {
    var all := extensions + more;
    forall x | x in extensions ensures x in all {
      var k :| 0 <= k < |extensions| && extensions[k] == x;
      assert all[k] == x;
    }
  }

  /** The order of the list and repeated names do not matter: only which names occur does. */
  lemma ProbeIgnoresOrderAndDuplicates(a: seq<string>, b: seq<string>)
    requires forall x :: x in a <==> x in b
    ensures ProbeSupport(a) == ProbeSupport(b)
  {
  }

  /** `supportMVR` keys on "GL_OVR_multiview2" alone: "GL_OVR_multiview" by itself does not set it. */
  lemma MultiviewAloneIsNotEnough()
    ensures !ProbeSupport(["GL_OVR_multiview"]).mvr
    ensures ProbeSupport(["GL_OVR_multiview", "GL_OVR_multiview2"]).mvr
  {
    assert "GL_OVR_multiview" != MvrExtension by {
      assert |"GL_OVR_multiview"| != |MvrExtension|;
    }
  }

  /* ---------------------------------------------------------------------
   * Shader variants
   * --------------------------------------------------------------------- */

  /** The four stage combinations of `PipelineVariants`. */
  datatype Stage = Vs | VsGs | VsTs | VsTsGs

  /** The four variant groups of `Programs`, one per render path (multi-view split by view count). */
  datatype Group = Software | Sps | Mvr | MvrQuad

  /** One group of compiled programs; `None` is a slot no program was ever created for. */
  datatype Variants = Variants(
    vs: Option<ProgramDef>,
    vsGs: Option<ProgramDef>,
    vsTs: Option<ProgramDef>,
    vsTsGs: Option<ProgramDef>)
  {
    function Get(stage: Stage): Option<ProgramDef>
    {
      match stage
      case Vs => vs
      case VsGs => vsGs
      case VsTs => vsTs
      case VsTsGs => vsTsGs
    }
  }

  const NoVariants: Variants := Variants(None, None, None, None)

  datatype Programs = Programs(software: Variants, sps: Variants, mvr: Variants, mvrQuad: Variants)
  {
    function Get(group: Group): Variants
    {
      match group
      case Software => software
      case Sps => sps
      case Mvr => mvr
      case MvrQuad => mvrQuad
    }

    /** The program in a slot, if one was created. */
    function Slot(group: Group, stage: Stage): Option<ProgramDef>
    {
      Get(group).Get(stage)
    }
  }

  /** The define every variant is compiled with. */
  const GeneralDefines: string := "#define USE_MVR_SCENE_DATA\n"

  /** The mode-specific defines handed to `initShaders` for each group. */
  function GroupDefines(group: Group): string
  {
    match group
    case Software => ""
    case Sps => "#define STEREO_SPS\n"
    case Mvr => "#define STEREO_MVR\n#define MVR_VIEWS 2\n"
    case MvrQuad => "#define STEREO_MVR\n#define MVR_VIEWS 4\n"
  }

  /** The shader stages linked into each stage combination, in the order they are listed. */
  function Stages(stage: Stage): seq<ShaderStage>
  {
    match stage
    case Vs => [Vertex, Fragment]
    case VsGs => [Vertex, Geometry, Fragment]
    case VsTs => [Vertex, TessControl, TessEvaluation, Fragment]
    case VsTsGs => [Vertex, TessControl, TessEvaluation, Geometry, Fragment]
  }

  /** The program created for one stage combination with the given mode-specific defines. */
  function VariantProgram(stage: Stage, defines: string): ProgramDef
  {
    ProgramDef(Stages(stage), GeneralDefines + defines)
  }

  /**
   * `initShaders`: create the plain vertex/fragment program, and unless
   * `excludeTSandGS` also the geometry, tessellation and combined variants.
   * `progs` is the group written to; slots that are skipped keep what it held.
   */
  method InitShaders(progs: Variants, defines: string, excludeTSandGS: bool) returns (r: Variants)
    ensures r.Get(Vs) == Some(VariantProgram(Vs, defines))
    ensures forall stage :: stage != Vs ==>
      r.Get(stage) == if excludeTSandGS then progs.Get(stage) else Some(VariantProgram(stage, defines))
  {
    var allDefines := GeneralDefines + defines;
    r := progs.(vs := Some(ProgramDef([Vertex, Fragment], allDefines)));
    if excludeTSandGS {
      return;
    }
    r := r.(vsGs := Some(ProgramDef([Vertex, Geometry, Fragment], allDefines)));
    r := r.(vsTs := Some(ProgramDef([Vertex, TessControl, TessEvaluation, Fragment], allDefines)));
    r := r.(vsTsGs := Some(ProgramDef([Vertex, TessControl, TessEvaluation, Geometry, Fragment], allDefines)));
  }

  /** A group with all four stage combinations compiled. */
  function AllVariants(group: Group): Variants
  {
    var d := GroupDefines(group);
    Variants(
      Some(VariantProgram(Vs, d)), Some(VariantProgram(VsGs, d)),
      Some(VariantProgram(VsTs, d)), Some(VariantProgram(VsTsGs, d)))
  }

  /** A group with only the plain vertex/fragment program compiled. */
  function VsOnlyVariants(group: Group): Variants
  {
    Variants(Some(VariantProgram(Vs, GroupDefines(group))), None, None, None)
  }

  /** A multi-view group as the constructor leaves it for the given capabilities. */
  function MultiviewVariants(group: Group, support: Support): Variants
  {
    if !support.mvr then NoVariants
    else if support.mvrTessellationGeometryShader then AllVariants(group)
    else VsOnlyVariants(group)
  }

  /** Reference definition of the programs the constructor creates. */
  function InitialPrograms(support: Support): Programs
  {
    Programs(
      software := AllVariants(Software),
      sps := AllVariants(Sps),
      mvr := MultiviewVariants(Mvr, support),
      mvrQuad := MultiviewVariants(MvrQuad, support))
  }

  /**
   * Which slots exist after construction: every slot of the software and
   * single-pass-stereo groups; in the multi-view groups only with multi-view
   * support, and the geometry/tessellation slots only with the combined
   * multi-view tessellation/geometry capability.
   */
  lemma CreatedSlots(support: Support, group: Group, stage: Stage)
    ensures InitialPrograms(support).Slot(group, stage).Some? <==>
      || group == Software
      || group == Sps
      || (support.mvr && (stage == Vs || support.mvrTessellationGeometryShader))
  {
  }

  /** Every created program links the stages of its slot and is compiled with the general define followed by its group's defines. */
  lemma CreatedProgramDefines(support: Support, group: Group, stage: Stage)
    requires InitialPrograms(support).Slot(group, stage).Some?
    ensures InitialPrograms(support).Slot(group, stage).value ==
      ProgramDef(Stages(stage), "#define USE_MVR_SCENE_DATA\n" + GroupDefines(group))
  {
  }

  /* ---------------------------------------------------------------------
   * Program-slot selection
   * --------------------------------------------------------------------- */

  /** The group `setSettings` picks for a render mode and view count. */
  function GroupFor(s: Settings): Group
  {
    match s.renderMode
    case SoftwareFallback => Software
    case SinglePassStereo => Sps
    case MultiViewRendering => if s.views == TwoViews then Mvr else MvrQuad
  }

  /** The stage combination `setSettings` picks for the shader-stage toggles. */
  function StageFor(s: Settings): Stage
  {
    if s.useTessellationShader && s.useGeometryShader then VsTsGs
    else if s.useGeometryShader then VsGs
    else if s.useTessellationShader then VsTs
    else Vs
  }

  /**
   * The selected program links a geometry shader iff one is requested and
   * tessellation shaders iff they are requested; vertex and fragment
   * shaders are always linked.
   */
  lemma SelectedStagesMatchToggles(s: Settings)
    ensures Geometry in Stages(StageFor(s)) <==> s.useGeometryShader
    ensures TessControl in Stages(StageFor(s)) <==> s.useTessellationShader
    ensures TessEvaluation in Stages(StageFor(s)) <==> s.useTessellationShader
    ensures Vertex in Stages(StageFor(s)) && Fragment in Stages(StageFor(s))
  {
  }

  /** The selected group's defines say which path and, for multi-view, how many views. */
  lemma SelectedGroupMatchesMode(s: Settings)
    ensures GroupFor(s) == Mvr || GroupFor(s) == MvrQuad <==> s.renderMode == MultiViewRendering
    ensures s.renderMode == MultiViewRendering ==>
      GroupDefines(GroupFor(s)) == "#define STEREO_MVR\n#define MVR_VIEWS " + (if ViewCount(s.views) == 2 then "2" else "4") + "\n"
  {
  }

  /* ---------------------------------------------------------------------
   * The pipeline object
   * --------------------------------------------------------------------- */

  class Pipeline {
    var support: Support
    var programs: Programs
    var program: Option<ProgramDef>
    var settings: Settings

    /** The programs are those the constructor creates for the probed capabilities. */
    ghost predicate Valid()
      reads this`programs, this`support
    {
      programs == InitialPrograms(support)
    }

    /**
     * The constructor: probe the extension names the driver enumerates,
     * compile the variants, and start with the software fallback's plain program.
     */
    constructor (extensions: seq<string>)
      ensures support == ProbeSupport(extensions)
      ensures Valid()
      ensures program == Some(VariantProgram(Vs, ""))
      ensures settings == Default()
    {
      var probed := ProbeExtensions(extensions);
      var software := InitShaders(NoVariants, "", false);
      var sps := InitShaders(NoVariants, "#define STEREO_SPS\n", false);
      var mvr, mvrQuad := NoVariants, NoVariants;
      if probed.mvr {
        mvr := InitShaders(NoVariants, "#define STEREO_MVR\n#define MVR_VIEWS 2\n", !probed.mvrTessellationGeometryShader);
        mvrQuad := InitShaders(NoVariants, "#define STEREO_MVR\n#define MVR_VIEWS 4\n", !probed.mvrTessellationGeometryShader);
      }
      support := probed;
      programs := Programs(software, sps, mvr, mvrQuad);
      program := software.vs;
      settings := Default();
      VariantsEqual(software, AllVariants(Software));
      VariantsEqual(sps, AllVariants(Sps));
      VariantsEqual(mvr, MultiviewVariants(Mvr, probed));
      VariantsEqual(mvrQuad, MultiviewVariants(MvrQuad, probed));
    }

    /** `setSettings`: store the settings verbatim and select the program slot they call for. */
    method SetSettings(s: Settings)
      modifies this`settings, this`program
      ensures settings == s
      ensures program == programs.Slot(GroupFor(s), StageFor(s))
    {
      settings := s;
      var progs: Variants;
      if settings.renderMode == SoftwareFallback {
        progs := programs.software;
      } else if settings.renderMode == SinglePassStereo {
        progs := programs.sps;
      } else {
        if settings.views == TwoViews {
          progs := programs.mvr;
        } else {
          progs := programs.mvrQuad;
        }
      }
      if settings.useTessellationShader && settings.useGeometryShader {
        program := progs.vsTsGs;
      } else if settings.useGeometryShader {
        program := progs.vsGs;
      } else if settings.useTessellationShader {
        program := progs.vsTs;
      } else {
        program := progs.vs;
      }
    }
  }

  /** Two groups that agree on every slot are the same group. */
  lemma VariantsEqual(a: Variants, b: Variants)
    requires forall stage :: a.Get(stage) == b.Get(stage)
    ensures a == b
  {
    assert a.Get(Vs) == b.Get(Vs);
    assert a.Get(VsGs) == b.Get(VsGs);
    assert a.Get(VsTs) == b.Get(VsTs);
    assert a.Get(VsTsGs) == b.Get(VsTsGs);
  }
}
