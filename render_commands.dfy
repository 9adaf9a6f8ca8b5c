/**
 * The self-contained arithmetic and selection logic of the engine's
 * command recording: compute-dispatch sizes, cubemap shadow-view
 * indexing, which shadow views and meshes get drawn, which post-process
 * texture is the pipeline's output and the UI's input, and the
 * ambient-occlusion toggle-off edge detector. The commands themselves go
 * to the GPU and are left out; what is drawn is returned as a list.
 */
module RenderCommands {

  // ---------------------------------------------------------------------------
  // Dispatch sizes
  // ---------------------------------------------------------------------------

  /** `(size + group - 1) / group`: the number of thread groups covering `size` items. */
  function DispatchCount(size: nat, groupSize: nat): (r: nat)
    requires groupSize > 0
    ensures r * groupSize >= size
    ensures r > 0 ==> (r - 1) * groupSize < size
  {
    var a := size + groupSize - 1;
    var q := a / groupSize;
    assert a == q * groupSize + a % groupSize;
    assert (q - 1) * groupSize == q * groupSize - groupSize;
    q
  }

  /** The compute passes whose dispatch size is derived from an image size. */
  datatype ComputePass = ResolveDepth | Tonemapper | FfxCas | FsrEasu | FsrRcas

  /** The thread-group footprint each pass uses, in pixels per side. */
  function GroupDimension(pass: ComputePass): (g: nat)
    ensures g == 8 || g == 16
    ensures g == 8 <==> pass == ResolveDepth || pass == Tonemapper
  {
    match pass
    case ResolveDepth => 8
    case Tonemapper => 8
    case FfxCas => 16
    case FsrEasu => 16
    case FsrRcas => 16
  }

  /** The X, Y and Z group counts dispatched for an image of `width` × `height`. */
  function DispatchSize(pass: ComputePass, width: nat, height: nat): (r: (nat, nat, nat))
    ensures r.2 == 1
    ensures r.0 * GroupDimension(pass) >= width && (r.0 > 0 ==> (r.0 - 1) * GroupDimension(pass) < width)
    ensures r.1 * GroupDimension(pass) >= height && (r.1 > 0 ==> (r.1 - 1) * GroupDimension(pass) < height)
  {
    var g := GroupDimension(pass);
    (DispatchCount(width, g), DispatchCount(height, g), 1)
  }

  /** The group count is the least one that covers the image: no smaller count does. */
  lemma DispatchCountIsLeast(size: nat, groupSize: nat, k: nat)
    requires groupSize > 0
    requires k * groupSize >= size
    ensures DispatchCount(size, groupSize) <= k
  {
    var r := DispatchCount(size, groupSize);
  }

  // ---------------------------------------------------------------------------
  // Shadow views
  // ---------------------------------------------------------------------------

  /** The slot of face `face` of point light `light`'s cubemap among the point shadow views. */
  function PointShadowViewIndex(light: nat, face: nat): (r: nat)
    requires face < 6
    ensures 6 * light <= r < 6 * light + 6
  {
    light * 6 + face
  }

  /** The light and the face are recovered from the view index. */
  lemma PointShadowViewIndexInverse(light: nat, face: nat)
    requires face < 6
    ensures PointShadowViewIndex(light, face) / 6 == light
    ensures PointShadowViewIndex(light, face) % 6 == face
  {
  }

  /** Distinct (light, face) pairs use distinct shadow views. */
  lemma PointShadowViewIndexInjective(light1: nat, face1: nat, light2: nat, face2: nat)
    requires face1 < 6 && face2 < 6
    requires PointShadowViewIndex(light1, face1) == PointShadowViewIndex(light2, face2)
    ensures light1 == light2 && face1 == face2
  {
    PointShadowViewIndexInverse(light1, face1);
    PointShadowViewIndexInverse(light2, face2);
  }

  /** A shadow mesh command names the mesh it draws. */
  datatype ShadowMeshCommand = ShadowMeshCommand(meshID: nat)

  datatype ShadowView = ShadowView(meshRenderCommands: seq<ShadowMeshCommand>)

  /** The indices in [lo, hi) of views with at least one command, ascending. */
  function NonEmptyViews(views: seq<ShadowView>, lo: nat, hi: nat): (r: seq<nat>)
    requires lo <= hi <= |views|
    ensures |r| <= hi - lo
    ensures forall k :: 0 <= k < |r| ==> lo <= r[k] < hi
    decreases hi - lo
  {
    if hi == lo then []
    else NonEmptyViews(views, lo, hi - 1) + (if views[hi - 1].meshRenderCommands != [] then [hi - 1] else [])
  }

  /** Every view listed has commands. */
  lemma {:induction false} NonEmptyViewsHaveCommands(views: seq<ShadowView>, lo: nat, hi: nat)
    requires lo <= hi <= |views|
    ensures forall k :: 0 <= k < |NonEmptyViews(views, lo, hi)| ==> views[NonEmptyViews(views, lo, hi)[k]].meshRenderCommands != []
    decreases hi - lo
  {
    if hi > lo {
      NonEmptyViewsHaveCommands(views, lo, hi - 1);
      var tail := if views[hi - 1].meshRenderCommands != [] then [hi - 1] else [];
      var r := NonEmptyViews(views, lo, hi);
      var init := NonEmptyViews(views, lo, hi - 1);
      assert r == init + tail;
      forall k | 0 <= k < |r|
        ensures views[r[k]].meshRenderCommands != []
      {
        if k < |init| {
          assert r[k] == init[k];
        }
      }
    }
  }

  /** The views are listed in ascending order, so each at most once. */
  lemma {:induction false} NonEmptyViewsAscending(views: seq<ShadowView>, lo: nat, hi: nat)
    requires lo <= hi <= |views|
    ensures forall k :: 0 <= k < |NonEmptyViews(views, lo, hi)| - 1 ==> NonEmptyViews(views, lo, hi)[k] < NonEmptyViews(views, lo, hi)[k + 1]
    decreases hi - lo
  {
    if hi > lo {
      NonEmptyViewsAscending(views, lo, hi - 1);
      var tail := if views[hi - 1].meshRenderCommands != [] then [hi - 1] else [];
      var r := NonEmptyViews(views, lo, hi);
      var init := NonEmptyViews(views, lo, hi - 1);
      assert r == init + tail;
      forall k | 0 <= k < |r| - 1
        ensures r[k] < r[k + 1]
      {
        assert r[k] == init[k];
        if k + 1 < |init| {
          assert r[k + 1] == init[k + 1];
        }
      }
    }
  }

  /** Every view of the range that has commands is listed. */
  lemma {:induction false} NonEmptyViewsComplete(views: seq<ShadowView>, lo: nat, hi: nat)
    requires lo <= hi <= |views|
    ensures forall v :: lo <= v < hi && views[v].meshRenderCommands != [] ==> v in NonEmptyViews(views, lo, hi)
    decreases hi - lo
  {
    if hi > lo {
      NonEmptyViewsComplete(views, lo, hi - 1);
    }
  }

  /** One more index: the view is appended when it has commands. */
  lemma NonEmptyViewsStep(views: seq<ShadowView>, lo: nat, v: nat)
    requires lo <= v < |views|
    ensures NonEmptyViews(views, lo, v + 1)
      == NonEmptyViews(views, lo, v) + (if views[v].meshRenderCommands != [] then [v] else [])
  {
  }

  /**
   * `RenderSpotShadowMaps`: with no spot views it returns at once;
   * otherwise views are visited in order and the empty ones skipped. The
   * result lists the views that were cleared and drawn.
   */
  method RenderSpotShadowMaps(numSpotShadowViews: nat, shadowViewsSpot: seq<ShadowView>) returns (drawn: seq<nat>)
    requires numSpotShadowViews <= |shadowViewsSpot|
    ensures drawn == NonEmptyViews(shadowViewsSpot, 0, numSpotShadowViews)
  {
    drawn := [];
    var bRenderAtLeastOneSpotShadowMap := numSpotShadowViews > 0;
    if !bRenderAtLeastOneSpotShadowMap {
      return;
    }
    var i := 0;
    while i < numSpotShadowViews
      invariant 0 <= i <= numSpotShadowViews
      invariant drawn == NonEmptyViews(shadowViewsSpot, 0, i)
    {
      if shadowViewsSpot[i].meshRenderCommands == [] {
        i := i + 1;
        continue;
      }
      drawn := drawn + [i];
      i := i + 1;
    }
  }

  /**
   * The face loop of `RenderPointShadowMaps` for one light: the six views
   * of its cubemap in order, empty ones skipped, appended to `drawnBefore`.
   */
  method DrawCubemapFaces(shadowViewsPoint: seq<ShadowView>, lo: nat, light: nat, drawnBefore: seq<nat>) returns (drawn: seq<nat>)
    requires lo <= 6 * light && 6 * light + 6 <= |shadowViewsPoint|
    requires drawnBefore == NonEmptyViews(shadowViewsPoint, lo, 6 * light)
    ensures drawn == NonEmptyViews(shadowViewsPoint, lo, 6 * light + 6)
  {
    drawn := drawnBefore;
    var face := 0;
    while face < 6
      invariant 0 <= face <= 6
      invariant drawn == NonEmptyViews(shadowViewsPoint, lo, 6 * light + face)
    {
      var iShadowView := PointShadowViewIndex(light, face);
      NonEmptyViewsStep(shadowViewsPoint, lo, iShadowView);
      if shadowViewsPoint[iShadowView].meshRenderCommands == [] {
        face := face + 1;
        continue;
      }
      drawn := drawn + [iShadowView];
      face := face + 1;
    }
  }

  /**
   * `RenderPointShadowMaps`: nothing when there are no point shadow views;
   * otherwise lights `iBegin .. iBegin + numPointLights - 1` in order, and
   * for each the six faces of its cubemap, skipping empty views. Returns
   * the lights visited and the view indices drawn.
   */
  method RenderPointShadowMaps(numPointShadowViews: int, shadowViewsPoint: seq<ShadowView>, iBegin: nat, numPointLights: nat)
    returns (lights: seq<nat>, drawn: seq<nat>)
    requires numPointShadowViews > 0 ==> 6 * (iBegin + numPointLights) <= |shadowViewsPoint|
    ensures numPointShadowViews <= 0 ==> lights == [] && drawn == []
    ensures numPointShadowViews > 0 ==>
      |lights| == numPointLights && (forall k :: 0 <= k < numPointLights ==> lights[k] == iBegin + k)
      && drawn == NonEmptyViews(shadowViewsPoint, 6 * iBegin, 6 * (iBegin + numPointLights))
  {
    lights := [];
    drawn := [];
    if numPointShadowViews <= 0 {
      return;
    }
    var i := iBegin;
    while i < iBegin + numPointLights
      invariant iBegin <= i <= iBegin + numPointLights
      invariant |lights| == i - iBegin && forall k :: 0 <= k < i - iBegin ==> lights[k] == iBegin + k
      invariant drawn == NonEmptyViews(shadowViewsPoint, 6 * iBegin, 6 * i)
    {
      lights := lights + [i];
      drawn := DrawCubemapFaces(shadowViewsPoint, 6 * iBegin, i, drawn);
      i := i + 1;
    }
  }

  // ---------------------------------------------------------------------------
  // Scene meshes
  // ---------------------------------------------------------------------------

  /** A mesh render command: the mesh and the material it is drawn with. */
  datatype MeshRenderCommand = MeshRenderCommand(meshID: nat, matID: nat)

  /** The commands whose mesh is in the scene's mesh table, in list order. */
  function MeshesDrawn(commands: seq<MeshRenderCommand>, meshes: set<nat>): (r: seq<MeshRenderCommand>)
    ensures |r| <= |commands|
    ensures forall k :: 0 <= k < |r| ==> r[k] in commands && r[k].meshID in meshes
    ensures forall c :: c in commands && c.meshID in meshes ==> c in r
  {
    if commands == [] then []
    else
      var last := commands[|commands| - 1];
      var init := commands[..|commands| - 1];
      assert commands == init + [last];
      MeshesDrawn(init, meshes) + (if last.meshID in meshes then [last] else [])
  }

  /** Filtering a concatenation is concatenating the filtered parts: the drawing order is the list order. */
  lemma {:induction false} MeshesDrawnAppend(a: seq<MeshRenderCommand>, b: seq<MeshRenderCommand>, meshes: set<nat>)
    ensures MeshesDrawn(a + b, meshes) == MeshesDrawn(a, meshes) + MeshesDrawn(b, meshes)
    decreases |b|
  {
    if b == [] {
      assert a + b == a;
    } else {
      var n := |b| - 1;
      assert (a + b)[..|a + b| - 1] == a + b[..n];
      assert b == b[..n] + [b[n]];
      MeshesDrawnAppend(a, b[..n], meshes);
    }
  }

  /** When every mesh is loaded, every command is drawn, in order. */
  lemma {:induction false} MeshesAllPresent(commands: seq<MeshRenderCommand>, meshes: set<nat>)
    requires forall k :: 0 <= k < |commands| ==> commands[k].meshID in meshes
    ensures MeshesDrawn(commands, meshes) == commands
    decreases |commands|
  {
    if commands != [] {
      var init := commands[..|commands| - 1];
      MeshesAllPresent(init, meshes);
      assert commands == init + [commands[|commands| - 1]];
    }
  }

  /**
   * The mesh loop of the depth pre-pass and the scene colour pass: a
   * command whose mesh is missing from the mesh table is skipped; the
   * rest are drawn in list order.
   */
  method DrawMeshRenderCommands(commands: seq<MeshRenderCommand>, meshes: set<nat>) returns (drawn: seq<MeshRenderCommand>)
    ensures drawn == MeshesDrawn(commands, meshes)
  {
    drawn := [];
    var i := 0;
    while i < |commands|
      invariant 0 <= i <= |commands|
      invariant drawn == MeshesDrawn(commands[..i], meshes)
    {
      var meshRenderCmd := commands[i];
      assert commands[..i + 1] == commands[..i] + [meshRenderCmd];
      MeshesDrawnAppend(commands[..i], [meshRenderCmd], meshes);
      assert [meshRenderCmd][..0] == [];
      if meshRenderCmd.meshID !in meshes {
        i := i + 1;
        continue;
      }
      drawn := drawn + [meshRenderCmd];
      i := i + 1;
    }
    assert commands[..i] == commands;
  }

  // ---------------------------------------------------------------------------
  // Post-process output and UI input
  // ---------------------------------------------------------------------------

  /** The post-process textures that can hold the final image. */
  datatype PostProcessTexture = TonemapperOut | FfxCasOut | FsrRcasOut

  /**
   * The texture the post-process chain ends in: the FSR output when FSR
   * is on, else the CAS output when CAS is on (with a positive sharpness,
   * folded into `casEnabled`), else the tonemapper output.
   */
  function PostProcessOutput(fsrEnabled: bool, casEnabled: bool): (r: PostProcessTexture)
    ensures r == FsrRcasOut <==> fsrEnabled
    ensures r == FfxCasOut <==> !fsrEnabled && casEnabled
    ensures r == TonemapperOut <==> !fsrEnabled && !casEnabled
  {
    if fsrEnabled then FsrRcasOut else if casEnabled then FfxCasOut else TonemapperOut
  }

  /** The texture the UI pass reads: CAS output first, then FSR, then the tonemapper. */
  function UIInput(casEnabled: bool, fsrEnabled: bool): (r: PostProcessTexture)
    ensures r == FfxCasOut <==> casEnabled
    ensures r == FsrRcasOut <==> !casEnabled && fsrEnabled
    ensures r == TonemapperOut <==> !casEnabled && !fsrEnabled
  {
    if casEnabled then FfxCasOut else if fsrEnabled then FsrRcasOut else TonemapperOut
  }

  /** The UI reads the post-process output exactly when CAS and FSR are not both on. */
  lemma UIInputIsPostProcessOutput(fsrEnabled: bool, casEnabled: bool)
    ensures UIInput(casEnabled, fsrEnabled) == PostProcessOutput(fsrEnabled, casEnabled) <==> !(fsrEnabled && casEnabled)
  {
    if fsrEnabled && casEnabled {
      assert UIInput(casEnabled, fsrEnabled) == FfxCasOut;
    }
  }

  /** The textures `TransitionForPostProcessing` moves. */
  datatype Resource = SceneColor | PostProcess(texture: PostProcessTexture) | ShadowMapsSpot | ShadowMapsPoint | ShadowMapsDirectional

  datatype ResourceState = ResolveDest | RenderTarget | NonPixelShaderResource | PixelShaderResource | UnorderedAccess | DepthWrite

  datatype Barrier = Barrier(resource: Resource, before: ResourceState, after: ResourceState)

  /**
   * The barriers before post-processing: the scene colour becomes a shader
   * input, the chain's output a UAV, the shadow maps depth targets again,
   * and, when FSR or CAS runs after it, the tonemapper output a UAV too.
   */
  function PostProcessBarriers(msaa: bool, fsrEnabled: bool, casEnabled: bool): (b: seq<Barrier>)
    ensures |b| == if fsrEnabled || casEnabled then 6 else 5
    ensures b[0] == Barrier(SceneColor, if msaa then ResolveDest else RenderTarget, NonPixelShaderResource)
    ensures b[1] == Barrier(PostProcess(PostProcessOutput(fsrEnabled, casEnabled)), PixelShaderResource, UnorderedAccess)
    ensures b[2] == Barrier(ShadowMapsSpot, PixelShaderResource, DepthWrite)
    ensures b[3] == Barrier(ShadowMapsPoint, PixelShaderResource, DepthWrite)
    ensures b[4] == Barrier(ShadowMapsDirectional, PixelShaderResource, DepthWrite)
    ensures |b| == 6 ==> b[5] == Barrier(PostProcess(TonemapperOut), PixelShaderResource, UnorderedAccess)
  {
    var output := PostProcessOutput(fsrEnabled, casEnabled);
    var barriers := [
      Barrier(SceneColor, if msaa then ResolveDest else RenderTarget, NonPixelShaderResource),
      Barrier(PostProcess(output), PixelShaderResource, UnorderedAccess),
      Barrier(ShadowMapsSpot, PixelShaderResource, DepthWrite),
      Barrier(ShadowMapsPoint, PixelShaderResource, DepthWrite),
      Barrier(ShadowMapsDirectional, PixelShaderResource, DepthWrite)
    ];
    if fsrEnabled || casEnabled then barriers + [Barrier(PostProcess(TonemapperOut), PixelShaderResource, UnorderedAccess)]
    else barriers
  }

  /** No resource is transitioned twice in one barrier batch, and the tonemapper output always becomes a UAV. */
  lemma PostProcessBarriersDistinct(msaa: bool, fsrEnabled: bool, casEnabled: bool)
    ensures var b := PostProcessBarriers(msaa, fsrEnabled, casEnabled);
      (forall i, j :: 0 <= i < j < |b| ==> b[i].resource != b[j].resource)
      && (exists k :: 0 <= k < |b| && b[k] == Barrier(PostProcess(TonemapperOut), PixelShaderResource, UnorderedAccess))
  {
    var b := PostProcessBarriers(msaa, fsrEnabled, casEnabled);
    if fsrEnabled || casEnabled {
      assert b[5] == Barrier(PostProcess(TonemapperOut), PixelShaderResource, UnorderedAccess);
    } else {
      assert b[1] == Barrier(PostProcess(TonemapperOut), PixelShaderResource, UnorderedAccess);
    }
  }

  // ---------------------------------------------------------------------------
  // Ambient occlusion
  // ---------------------------------------------------------------------------

  /** Whether each frame clears the ambient-occlusion texture, starting from the previous frame's setting. */
  function AmbientOcclusionClears(previous: bool, frames: seq<bool>): (r: seq<bool>)
    ensures |r| == |frames|
    ensures |frames| > 0 ==> r[0] == (previous && !frames[0])
    decreases |frames|
  {
    if frames == [] then []
    else [previous && !frames[0]] + AmbientOcclusionClears(frames[0], frames[1..])
  }

  /** Frame `k` clears exactly when SSAO was on in frame `k - 1` and is off in frame `k`. */
  lemma {:induction false} AmbientOcclusionClearsAt(previous: bool, frames: seq<bool>, k: nat)
    requires 0 < k < |frames|
    ensures AmbientOcclusionClears(previous, frames)[k] == (frames[k - 1] && !frames[k])
    decreases k
  {
    var rest := frames[1..];
    assert AmbientOcclusionClears(previous, frames)[k] == AmbientOcclusionClears(frames[0], rest)[k - 1];
    if k > 1 {
      AmbientOcclusionClearsAt(frames[0], rest, k - 1);
    }
  }

  /** The clear runs once per switch-off: never on two frames in a row. */
  lemma AmbientOcclusionClearsOnce(previous: bool, frames: seq<bool>, k: nat)
    requires k + 1 < |frames|
    ensures !(AmbientOcclusionClears(previous, frames)[k] && AmbientOcclusionClears(previous, frames)[k + 1])
  {
    AmbientOcclusionClearsAt(previous, frames, k + 1);
    if k > 0 {
      AmbientOcclusionClearsAt(previous, frames, k);
    }
  }

  /** `RenderAmbientOcclusion`'s function-static "previous frame had SSAO" flag. */
  class AmbientOcclusionPass {
    var ssaoPrevious: bool

    constructor()
      ensures !ssaoPrevious
    {
      ssaoPrevious := false;
    }

    /**
     * One frame: the pass is recorded when SSAO is on, the texture is
     * cleared when SSAO was on last frame and is off now, and the flag
     * then remembers this frame's setting.
     */
    method RenderAmbientOcclusion(screenSpaceAO: bool) returns (recorded: bool, cleared: bool)
      modifies this`ssaoPrevious
      ensures recorded == screenSpaceAO
      ensures cleared == (old(ssaoPrevious) && !screenSpaceAO)
      ensures ssaoPrevious == screenSpaceAO
    {
      var bSSAOToggledOff := ssaoPrevious && !screenSpaceAO;
      recorded := screenSpaceAO;
      cleared := bSSAOToggledOff;
      ssaoPrevious := screenSpaceAO;
    }
  }
}
