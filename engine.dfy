/**
 * The frame orchestrator: the `created` / `outdated` / `paused` state
 * machine, the objects it builds and releases (as a lifecycle log), the
 * rendering and per-image compute recordings, and the queue log of the
 * frames it submits.
 */
module Orchestrator {
  import opened Vk
  import Images
  import opened Descriptors
  import opened FrameSync
  import EarthPass

  // ---------------------------------------------------------------------------
  // Objects and the lifecycle log

  /** The objects the orchestrator owns. */
  datatype Part =
    | SurfaceObject
    | DeviceObject
    | SwapChainObject
    | SceneObject
    | RenderPassObject
    | PoolObject
    | DescriptorObjects
    | PipelineObjects
    | SemaphoreObject(semaphore: Semaphore)

  /**
   * `a` uses `b`, so `b` must exist for as long as `a` does: everything is
   * made on the device, the device and swapchain on the surface, the
   * descriptor sets point at the scene's buffers and textures, the main
   * pass's color image and the swapchain images and come from the pool, and
   * the pipelines use the set layouts and the main render pass.
   */
  predicate DependsOn(a: Part, b: Part) {
    match a
    case SurfaceObject => false
    case DeviceObject => b == SurfaceObject
    case SwapChainObject => b == DeviceObject || b == SurfaceObject
    case SceneObject => b == DeviceObject
    case RenderPassObject => b == DeviceObject
    case PoolObject => b == DeviceObject
    case DescriptorObjects => b == PoolObject || b == SceneObject || b == RenderPassObject || b == SwapChainObject
    case PipelineObjects => b == DeviceObject || b == RenderPassObject || b == DescriptorObjects
    case SemaphoreObject(_) => b == DeviceObject
  }

  /** One lifecycle step of the orchestrator, in the order it happens. */
  datatype Event =
    | Build(part: Part)
    | Release(part: Part)
    | Rebuild(part: Part)
    | DeviceSurfaceUpdated
    | WaitIdle
    | SceneResized(extent: Extent2D)
    | SceneUpdated
    | TimeSkipped
    | FreeCommandBuffers(pool: nat, buffersFrom: seq<nat>)

  /** What `create` builds, in order. */
  function CreationEvents(): seq<Event> {
    [ Build(SurfaceObject), Build(DeviceObject), Build(SwapChainObject), Build(SceneObject),
      Build(RenderPassObject), Build(PoolObject), Build(DescriptorObjects), Build(PipelineObjects),
      Build(SemaphoreObject(RenderingFinished)), Build(SemaphoreObject(ComputingFinished)),
      Build(SemaphoreObject(ImageAvailable)) ]
  }

  /** What `destroy` releases, in order, after waiting for the device to go idle. */
  function TeardownEvents(): seq<Event> {
    [ WaitIdle,
      Release(SemaphoreObject(ComputingFinished)), Release(SemaphoreObject(RenderingFinished)),
      Release(SemaphoreObject(ImageAvailable)),
      Release(PipelineObjects), Release(DescriptorObjects), Release(RenderPassObject), Release(PoolObject),
      Release(SceneObject), Release(SwapChainObject), Release(DeviceObject), Release(SurfaceObject) ]
  }

  /** What `recreate` does to the objects when the swapchain is outdated, before re-recording. */
  function RecreateEvents(windowExtent: Extent2D): seq<Event> {
    [ WaitIdle, Release(SurfaceObject), Build(SurfaceObject), DeviceSurfaceUpdated,
      Rebuild(SwapChainObject), Rebuild(RenderPassObject), Rebuild(PipelineObjects), SceneResized(windowExtent) ]
  }

  /**
   * `create` builds every object after the objects it depends on, and builds
   * each object once.
   */
  lemma CreationRespectsDependencies()
    ensures forall i, j :: (0 <= i < |CreationEvents()| && 0 <= j < |CreationEvents()| &&
                            DependsOn(CreationEvents()[i].part, CreationEvents()[j].part)) ==> j < i
    ensures forall i, j :: 0 <= i < j < |CreationEvents()| ==> CreationEvents()[i] != CreationEvents()[j]
    ensures forall e :: e in CreationEvents() ==> e.Build?
  {
  }

  /** `destroy` waits for the device first and then only releases, each object once. */
  lemma TeardownShape()
    ensures TeardownEvents()[0] == WaitIdle
    ensures forall e :: e in TeardownEvents()[1..] ==> e.Release?
    ensures forall i, j :: 0 <= i < j < |TeardownEvents()| ==> TeardownEvents()[i] != TeardownEvents()[j]
  {
  }

  /** `destroy` releases every object before the objects it depends on. */
  lemma TeardownRespectsDependencies()
    ensures forall i, j :: (1 <= i < |TeardownEvents()| && 1 <= j < |TeardownEvents()| &&
                            DependsOn(TeardownEvents()[i].part, TeardownEvents()[j].part)) ==> i < j
  {
  }

  /** `destroy` releases exactly the objects `create` built. */
  lemma TeardownReleasesWhatCreationBuilt()
    ensures forall p :: Release(p) in TeardownEvents() <==> Build(p) in CreationEvents()
  {
  }

  /**
   * The teardown is not the exact reverse of the creation order: the main
   * render pass is released before the pool although it was built first.
   * Neither depends on the other, so the order is still safe.
   */
  lemma TeardownNotReversed()
    ensures CreationEvents()[4] == Build(RenderPassObject) && CreationEvents()[5] == Build(PoolObject)
    ensures TeardownEvents()[6] == Release(RenderPassObject) && TeardownEvents()[7] == Release(PoolObject)
    ensures !DependsOn(RenderPassObject, PoolObject) && !DependsOn(PoolObject, RenderPassObject)
  {
  }

  /**
   * `recreate` releases the surface and nothing else, so the device and the
   * swapchain, which both depend on it, are still alive when it goes; the
   * swapchain is rebuilt only after the new surface is built.
   */
  lemma RecreateReleasesSurfaceUnderDependents(windowExtent: Extent2D)
    ensures RecreateEvents(windowExtent)[1] == Release(SurfaceObject)
    ensures DependsOn(DeviceObject, SurfaceObject) && DependsOn(SwapChainObject, SurfaceObject)
    ensures forall e :: e in RecreateEvents(windowExtent) && e.Release? ==> e.part == SurfaceObject
    ensures RecreateEvents(windowExtent)[2] == Build(SurfaceObject)
    ensures RecreateEvents(windowExtent)[4] == Rebuild(SwapChainObject)
  {
  }

  /**
   * `recreate` rebuilds the main render pass, on which the descriptor sets
   * depend through the tone-source set's color image, but neither builds nor
   * rebuilds the descriptor sets; only the pipelines are rebuilt after it.
   */
  lemma RecreateRebuildsPassUnderDescriptors(windowExtent: Extent2D)
    ensures RecreateEvents(windowExtent)[5] == Rebuild(RenderPassObject)
    ensures DependsOn(DescriptorObjects, RenderPassObject)
    ensures Build(DescriptorObjects) !in RecreateEvents(windowExtent)
    ensures Rebuild(DescriptorObjects) !in RecreateEvents(windowExtent)
    ensures forall e :: e in RecreateEvents(windowExtent)[6..] && e.Rebuild? ==> e.part == PipelineObjects
  {
  }

  /** A free hands back buffers only to the pool they were allocated from. */
  predicate FreeValid(e: Event) {
    e.FreeCommandBuffers? ==> forall j :: 0 <= j < |e.buffersFrom| ==> e.buffersFrom[j] == e.pool
  }

  predicate FreesValid(log: seq<Event>) {
    forall e :: e in log ==> FreeValid(e)
  }

  lemma FreesValidAppend(a: seq<Event>, b: seq<Event>)
    ensures FreesValid(a + b) <==> FreesValid(a) && FreesValid(b)
  {
  }

  /** `create`'s own steps free no command buffers. */
  lemma CreationFreesNothing()
    ensures FreesValid(CreationEvents())
  {
  }

  /** `destroy`'s own steps free no command buffers. */
  lemma TeardownFreesNothing()
    ensures FreesValid(TeardownEvents())
  {
  }

  lemma RecreateFreesNothing(windowExtent: Extent2D)
    ensures FreesValid(RecreateEvents(windowExtent))
  {
  }

  // ---------------------------------------------------------------------------
  // Recorded commands

  datatype PipelineKind = EarthPipeline | CloudsPipeline | SkyboxPipeline | TonePipeline

  datatype BindPoint = GraphicsBind | ComputeBind

  /** One command of the rendering or compute command buffers. */
  datatype EngineCommand =
    | BeginRenderPass(framebuffer: nat, renderArea: Extent2D, clearValueCount: nat)
    | BindPipeline(point: BindPoint, pipeline: PipelineKind)
    | BindDescriptorSets(point: BindPoint, pipeline: PipelineKind, sets: seq<SetRef>)
    | DrawCube
    | DrawSphere
    | EndRenderPass
    | Barrier(command: Command)
    | Dispatch(x: nat, y: nat, z: nat)

  /** A recorded command buffer and the command pool (by device generation) it was allocated from. */
  datatype Recording = Recording(pool: nat, commands: seq<EngineCommand>)

  /** The set layouts each pipeline is built with, by group (`initPipelines`). */
  function PipelineLayout(p: PipelineKind): seq<nat> {
    match p
    case EarthPipeline => [SCENE, EARTH]
    case CloudsPipeline => [SCENE, CLOUDS_AND_SKYBOX]
    case SkyboxPipeline => [SCENE, CLOUDS_AND_SKYBOX]
    case TonePipeline => [TONE_SRC, TONE_DST]
  }

  /**
   * The resources of type `t` pipeline `p`'s shaders use, in binding order:
   * the graphics pipelines sample their object's textures and read the
   * scene's camera and lighting buffers and then their object's
   * transformation; the tone pipeline reads the main color image and writes
   * swapchain image `image`.
   */
  function PipelineResources(p: PipelineKind, image: nat, t: DescriptorType): seq<Resource> {
    match (p, t)
    case (EarthPipeline, CombinedImageSampler) => EarthTextures()
    case (EarthPipeline, UniformBuffer) => [CameraBuffer, LightingBuffer, EarthTransformation]
    case (CloudsPipeline, CombinedImageSampler) => [CloudsTexture]
    case (CloudsPipeline, UniformBuffer) => [CameraBuffer, LightingBuffer, CloudsTransformation]
    case (SkyboxPipeline, CombinedImageSampler) => [SkyboxTexture]
    case (SkyboxPipeline, UniformBuffer) => [CameraBuffer, LightingBuffer, SkyboxTransformation]
    case (TonePipeline, StorageImage) => [MainColorImage, SwapChainImage(image)]
    case _ => []
  }

  /** The sets a bind for pipeline `p` pushes; the tone pipeline's destination set is the one of swapchain image `image`. */
  function PipelineSets(p: PipelineKind, image: nat): seq<SetRef> {
    match p
    case EarthPipeline => [SetRef(SCENE, 0), SetRef(EARTH, 0)]
    case CloudsPipeline => [SetRef(SCENE, 0), SetRef(CLOUDS_AND_SKYBOX, 0)]
    case SkyboxPipeline => [SetRef(SCENE, 0), SetRef(CLOUDS_AND_SKYBOX, 1)]
    case TonePipeline => [SetRef(TONE_SRC, 0), SetRef(TONE_DST, image)]
  }

  /** A bind gives pipeline `p` one pushed set per layout slot, each from the slot's group. */
  predicate BindingMatches(groups: seq<Group>, p: PipelineKind, refs: seq<SetRef>) {
    |refs| == |PipelineLayout(p)| && Pushed(groups, refs) &&
    forall j :: 0 <= j < |refs| ==> refs[j].group == PipelineLayout(p)[j]
  }

  /** The rendering command buffer for a main pass of extent `e` (`initRenderingCommands`). */
  function RenderRecording(e: Extent2D): seq<EngineCommand> {
    [ BeginRenderPass(0, e, |EarthPass.ClearValues()|),
      BindPipeline(GraphicsBind, SkyboxPipeline),
      BindDescriptorSets(GraphicsBind, SkyboxPipeline, PipelineSets(SkyboxPipeline, 0)),
      DrawCube,
      BindPipeline(GraphicsBind, EarthPipeline),
      BindDescriptorSets(GraphicsBind, EarthPipeline, PipelineSets(EarthPipeline, 0)),
      DrawSphere,
      BindPipeline(GraphicsBind, CloudsPipeline),
      BindDescriptorSets(GraphicsBind, CloudsPipeline, PipelineSets(CloudsPipeline, 0)),
      DrawSphere,
      EndRenderPass ]
  }

  /** Color mip 0, layer 0: what the compute barriers cover on a swapchain image. */
  const TONE_RANGE: SubresourceRange := SubresourceRange(ASPECT_COLOR, 0, 1, 0, 1)

  /** The compute command buffer for swapchain image `i` (handle `image`) of extent `e` (`initComputingCommands`). */
  function ComputeRecording(i: nat, image: Handle, e: Extent2D): seq<EngineCommand> {
    [ BindPipeline(ComputeBind, TonePipeline),
      BindDescriptorSets(ComputeBind, TonePipeline, PipelineSets(TonePipeline, i)),
      Barrier(PipelineBarrier(STAGE_TOP_OF_PIPE, STAGE_COMPUTE_SHADER,
        ImageBarrier(ACCESS_NONE, ACCESS_SHADER_WRITE, Undefined, General, image, TONE_RANGE))),
      Dispatch(e.width / 8, e.height / 8, 1),
      Barrier(PipelineBarrier(STAGE_COMPUTE_SHADER, STAGE_BOTTOM_OF_PIPE,
        ImageBarrier(ACCESS_SHADER_WRITE, ACCESS_UNIFORM_READ, General, PresentSrc, image, TONE_RANGE))) ]
  }

  /** One compute buffer per swapchain image, all from command pool `pool`. */
  function ComputeBuffers(pool: nat, images: seq<Handle>, e: Extent2D): (r: seq<Recording>)
    ensures |r| == |images|
    ensures forall i :: 0 <= i < |images| ==> r[i] == Recording(pool, ComputeRecording(i, images[i], e))
  {
    seq(|images|, i requires 0 <= i < |images| => Recording(pool, ComputeRecording(i, images[i], e)))
  }

  /** The pipeline barriers among recorded commands, in order. */
  function Barriers(cmds: seq<EngineCommand>): seq<Command>
    decreases |cmds|
  {
    if cmds == [] then []
    else Barriers(cmds[..|cmds| - 1]) + (if cmds[|cmds| - 1].Barrier? then [cmds[|cmds| - 1].command] else [])
  }

  /** The pools of a list of recorded buffers. */
  function Pools(rs: seq<Recording>): (r: seq<nat>)
    ensures |r| == |rs| && forall k :: 0 <= k < |rs| ==> r[k] == rs[k].pool
  {
    seq(|rs|, k requires 0 <= k < |rs| => rs[k].pool)
  }

  /** What re-recording the rendering buffer frees into the current pool `pool`: the buffer it still holds. */
  function RenderingFree(held: Option<Recording>, pool: nat): seq<Event> {
    if held.Some? then [FreeCommandBuffers(pool, [held.value.pool])] else []
  }

  /** What re-recording the compute buffers frees into the current pool `pool`: the buffers it still holds. */
  function ComputingFree(held: seq<Recording>, pool: nat): seq<Event> {
    if |held| > 0 then [FreeCommandBuffers(pool, Pools(held))] else []
  }

  /** Each pipeline's bind, against the start-up groups, fills the pipeline's layout with pushed sets. */
  lemma PipelineLayoutFilled(n: nat, p: PipelineKind, i: nat)
    requires p == TonePipeline ==> i < n
    ensures BindingMatches(InitialDescriptors(n), p, PipelineSets(p, i))
  {
  }

  /**
   * The resources of each type that a pipeline's bind points at, against the
   * start-up groups, are exactly the ones the pipeline's shaders use.
   */
  lemma PipelineBinding(n: nat, p: PipelineKind, i: nat, t: DescriptorType)
    requires p == TonePipeline ==> i < n
    ensures BoundResources(InitialDescriptors(n), PipelineSets(p, i), t) == PipelineResources(p, i, t)
  {
    match p
    case TonePipeline => ToneBinding(n, i, t);
    case EarthPipeline => ObjectBinding(n, SetRef(EARTH, 0), EarthTextures(), EarthTransformation, t);
    case CloudsPipeline => ObjectBinding(n, SetRef(CLOUDS_AND_SKYBOX, 0), [CloudsTexture], CloudsTransformation, t);
    case SkyboxPipeline => ObjectBinding(n, SetRef(CLOUDS_AND_SKYBOX, 1), [SkyboxTexture], SkyboxTransformation, t);
  }

  /** A graphics bind: the scene's set, then the object's set `own` of textures and a transformation. */
  lemma ObjectBinding(n: nat, own: SetRef, textures: seq<Resource>, transformation: Resource, t: DescriptorType)
    requires own.group < GROUP_COUNT && own.index < |InitialDescriptors(n)[own.group].sets|
    requires InitialDescriptors(n)[own.group].sets[own.index] ==
             [Write(CombinedImageSampler, textures), Write(UniformBuffer, [transformation])]
    ensures BoundResources(InitialDescriptors(n), [SetRef(SCENE, 0), own], t) ==
            (if t == CombinedImageSampler then textures
             else if t == UniformBuffer then [CameraBuffer, LightingBuffer, transformation] else [])
  {
    var d := InitialDescriptors(n);
    assert d[SCENE].sets[0] == SCENE_SET;
    BoundTwo(d, SetRef(SCENE, 0), own, t);
    var scene := ResourcesOf(SCENE_SET, t);
    var obj := ResourcesOf(d[own.group].sets[own.index], t);
    assert BoundResources(d, [SetRef(SCENE, 0), own], t) == scene + obj;
    ResourcesOfOne(SCENE_SET[0], t);
    ObjectSetResources(textures, transformation, t);
    if t == CombinedImageSampler {
      assert scene == [] && obj == textures;
    } else if t == UniformBuffer {
      assert scene == [CameraBuffer, LightingBuffer] && obj == [transformation];
    } else {
      assert scene == [] && obj == [];
    }
  }

  /** A tone bind: the main color image's set, then the set of swapchain image `i`. */
  lemma ToneBinding(n: nat, i: nat, t: DescriptorType)
    requires i < n
    ensures BoundResources(InitialDescriptors(n), [SetRef(TONE_SRC, 0), SetRef(TONE_DST, i)], t) ==
            (if t == StorageImage then [MainColorImage, SwapChainImage(i)] else [])
  {
    var d := InitialDescriptors(n);
    assert d[TONE_SRC].sets[0] == TONE_SRC_SET && d[TONE_DST].sets[i] == ToneDstSet(i);
    BoundTwo(d, SetRef(TONE_SRC, 0), SetRef(TONE_DST, i), t);
    ToneSetResources(i, t);
  }

  /** A tone bind's two sets: the main color image, then swapchain image `i`. */
  lemma ToneSetResources(i: nat, t: DescriptorType)
    ensures ResourcesOf(TONE_SRC_SET, t) == (if t == StorageImage then [MainColorImage] else [])
    ensures ResourcesOf(ToneDstSet(i), t) == (if t == StorageImage then [SwapChainImage(i)] else [])
  {
    var src, dst := Write(StorageImage, [MainColorImage]), Write(StorageImage, [SwapChainImage(i)]);
    assert TONE_SRC_SET == [src] && ToneDstSet(i) == [dst];
    ResourcesOfOne(src, t);
    ResourcesOfOne(dst, t);
  }

  /** An object's set: its textures, then its transformation buffer. */
  lemma ObjectSetResources(textures: seq<Resource>, transformation: Resource, t: DescriptorType)
    ensures ResourcesOf([Write(CombinedImageSampler, textures), Write(UniformBuffer, [transformation])], t) ==
            (if t == CombinedImageSampler then textures else if t == UniformBuffer then [transformation] else [])
  {
    var u, v := Write(CombinedImageSampler, textures), Write(UniformBuffer, [transformation]);
    ResourcesOfTwo(u, v, t);
    var none: seq<Resource> := [];
    assert none + textures == textures && [transformation] == none + [transformation];
  }

  /**
   * The rendering buffer is one main render pass over framebuffer 0 with one
   * clear value per attachment; inside it each graphics pipeline is bound
   * right before its descriptor sets, and each draw follows the bind of its
   * object's sets: the cube with the skybox, the spheres with the Earth and
   * the clouds.
   */
  lemma RenderRecordingShape(e: Extent2D)
    ensures var r := RenderRecording(e);
      && |r| == 11
      && r[0] == BeginRenderPass(0, e, 2) && r[10] == EndRenderPass
      && (forall k :: 0 < k < 10 ==> !r[k].BeginRenderPass? && !r[k].EndRenderPass?)
      && (forall k :: 0 <= k < 11 && r[k].BindDescriptorSets? ==>
            && k > 0 && r[k - 1] == BindPipeline(GraphicsBind, r[k].pipeline) && r[k].point == GraphicsBind
            && r[k].pipeline != TonePipeline && r[k].sets == PipelineSets(r[k].pipeline, 0))
      && (forall k :: 0 <= k < 11 && (r[k].DrawCube? || r[k].DrawSphere?) ==>
            k > 1 && r[k - 1].BindDescriptorSets? &&
            (r[k].DrawCube? <==> r[k - 1].pipeline == SkyboxPipeline))
  {
  }

  /**
   * Compute buffer `i` binds the tone pipeline and then its sets; it moves
   * swapchain image `i` from any layout to GENERAL (the layout its storage
   * descriptor declares) before the dispatch and to PRESENT_SRC after it,
   * touching only color mip 0 layer 0 of that image; and the dispatch covers
   * the image in blocks of 8, leaving fewer than 8 columns or rows uncovered.
   */
  lemma ComputeRecordingShape(i: nat, image: Handle, e: Extent2D, l: Layout)
    ensures var c := ComputeRecording(i, image, e);
      && |c| == 5
      && c[0] == BindPipeline(ComputeBind, TonePipeline)
      && c[1] == BindDescriptorSets(ComputeBind, TonePipeline, PipelineSets(TonePipeline, i))
      && Images.Consistent(image, [l], Barriers(c))
      && Images.Run(image, [l], Barriers(c[..3])) == [Images.STORAGE_IMAGE_LAYOUT]
      && Images.Run(image, [l], Barriers(c)) == [PresentSrc]
      && (forall b :: b in Barriers(c) ==> b.PipelineBarrier? && b.barrier.image == image && b.barrier.range == TONE_RANGE)
      && c[3].Dispatch? && c[3].z == 1
      && c[3].x * 8 <= e.width < c[3].x * 8 + 8 && c[3].y * 8 <= e.height < c[3].y * 8 + 8
  {
    var c := ComputeRecording(i, image, e);
    var b0, b1 := c[2].command, c[4].command;
    assert c[..1][..0] == [] && Barriers(c[..1]) == [];
    assert c[..2][..1] == c[..1] && Barriers(c[..2]) == [];
    assert c[..3][..2] == c[..2] && Barriers(c[..3]) == [b0];
    assert c[..4][..3] == c[..3] && Barriers(c[..4]) == [b0];
    assert c[..5][..4] == c[..4] && c[..5] == c;
    assert Barriers(c) == [b0, b1];
    Images.RunOne(image, [l], b0);
    Images.RunAppend(image, [l], [b0], [b1]);
    Images.RunOne(image, Images.Run(image, [l], [b0]), b1);
    assert [b0] + [b1] == [b0, b1];
  }

  // ---------------------------------------------------------------------------
  // Frame results

  /** `drawFrame`'s result: a presented frame, `false`, or a fatal driver error. */
  datatype FrameOutcome = Presented | NotPresented | Aborted

  /** An acquire result with which the frame goes on to render. */
  predicate AcquireProceeds(acquire: int) {
    acquire == VK_SUCCESS || acquire == VK_SUBOPTIMAL_KHR
  }

  /**
   * `drawFrame`'s result: presented exactly when the gate is open, the
   * acquire succeeds or is suboptimal and present succeeds; not presented
   * when the gate is closed, the acquire is out of date, or present is out of
   * date or suboptimal; fatal for any other acquire or present error.
   */
  function FrameResult(gateOpen: bool, acquire: int, present: int): (r: FrameOutcome)
    ensures r == Presented <==> gateOpen && AcquireProceeds(acquire) && present == VK_SUCCESS
    ensures r == NotPresented <==>
            !gateOpen || acquire == VK_ERROR_OUT_OF_DATE_KHR ||
            (AcquireProceeds(acquire) && (present == VK_ERROR_OUT_OF_DATE_KHR || present == VK_SUBOPTIMAL_KHR))
    ensures r == Aborted <==>
            gateOpen && acquire != VK_ERROR_OUT_OF_DATE_KHR &&
            (!AcquireProceeds(acquire) ||
             (present != VK_SUCCESS && present != VK_ERROR_OUT_OF_DATE_KHR && present != VK_SUBOPTIMAL_KHR))
  {
    if !gateOpen then NotPresented
    else if acquire == VK_ERROR_OUT_OF_DATE_KHR then NotPresented
    else if !AcquireProceeds(acquire) then Aborted
    else if present == VK_ERROR_OUT_OF_DATE_KHR || present == VK_SUBOPTIMAL_KHR then NotPresented
    else if present != VK_SUCCESS then Aborted
    else Presented
  }

  /** The queue operations a frame submits: all four once the acquire proceeds, none otherwise. */
  function FrameQueue(gateOpen: bool, acquire: int, imageIndex: nat): seq<QueueOp> {
    if gateOpen && AcquireProceeds(acquire) then FrameOps(imageIndex) else []
  }

  /**
   * Nothing is submitted unless the acquire proceeds, and a frame that
   * reaches present has been submitted in full.
   */
  lemma FrameResultTable(gateOpen: bool, acquire: int, present: int, i: nat)
    ensures FrameQueue(gateOpen, acquire, i) == [] <==> !(gateOpen && AcquireProceeds(acquire))
    ensures FrameResult(gateOpen, acquire, present) == Presented ==> FrameQueue(gateOpen, acquire, i) == FrameOps(i)
  {
  }

  // ---------------------------------------------------------------------------
  // The orchestrator

  class Engine {
    var created: bool
    var outdated: bool
    var paused: bool
    /** The generation of the logical device: how many devices `create` has made. */
    var device: nat
    var swapChainImages: seq<Handle>
    var swapExtent: Extent2D
    /** The extent of the main render pass, which the rendering buffer renders over. */
    var passExtent: Extent2D
    var poolBudget: PoolBudget
    var descriptors: seq<Group>
    var renderingCommands: Option<Recording>
    var computingCommands: seq<Recording>
    /** The extent the compute buffers were recorded with. */
    ghost var computeExtent: Extent2D
    var log: seq<Event>
    var queue: seq<QueueOp>

    /**
     * The orchestrator's invariant: the queue log is a legal semaphore
     * protocol with nothing left pending, every free went to the right pool,
     * and while created the descriptor groups, pool budget and command
     * buffers are the ones start-up builds, recorded on the current device;
     * while not created no command buffer is held.
     */
    ghost predicate Valid()
      reads this
    {
      && Replay({}, queue) == Some({})
      && FreesValid(log)
      && (created ==>
            && descriptors == InitialDescriptors(|swapChainImages|)
            && poolBudget == DeclaredBudget(|swapChainImages|, TEXTURE_COUNT, BUFFER_COUNT)
            && renderingCommands == Some(Recording(device, RenderRecording(passExtent)))
            && computingCommands == ComputeBuffers(device, swapChainImages, computeExtent))
      && (!created ==> renderingCommands == None && computingCommands == [])
    }

    predicate GateOpen()
      reads this
    {
      created && !outdated && !paused
    }

    /** `paused` has no initialiser in the source; its first value is a parameter here. */
    constructor (initiallyPaused: bool)
      ensures Valid()
      ensures !created && !outdated && paused == initiallyPaused
      ensures log == [] && queue == [] && device == 0
    {
      created := false;
      outdated := false;
      paused := initiallyPaused;
      device := 0;
      swapChainImages := [];
      swapExtent := Extent2D(0, 0);
      passExtent := Extent2D(0, 0);
      poolBudget := PoolBudget(0, 0, 0, 0);
      descriptors := [];
      renderingCommands := None;
      computingCommands := [];
      computeExtent := Extent2D(0, 0);
      log := [];
      queue := [];
    }

    /**
     * `create`: a no-op returning true once created; otherwise builds every
     * object in order on a new device, with the swapchain's images and extent
     * given as parameters, pushes the descriptor sets, records the command
     * buffers and sets `created`.
     */
    method Create(swapChainExtent: Extent2D, images: seq<Handle>) returns (ok: bool)
      requires Valid()
      modifies this
      ensures Valid() && ok && created
      ensures outdated == old(outdated) && paused == old(paused) && queue == old(queue)
      ensures old(created) ==>
        && device == old(device) && swapChainImages == old(swapChainImages) && swapExtent == old(swapExtent)
        && passExtent == old(passExtent) && poolBudget == old(poolBudget) && descriptors == old(descriptors)
        && renderingCommands == old(renderingCommands) && computingCommands == old(computingCommands)
        && computeExtent == old(computeExtent) && log == old(log)
      ensures !old(created) ==>
        && device == old(device) + 1 && swapChainImages == images && swapExtent == swapChainExtent
        && passExtent == swapChainExtent && computeExtent == swapChainExtent
        && descriptors == InitialDescriptors(|images|)
        && poolBudget == DeclaredBudget(|images|, TEXTURE_COUNT, BUFFER_COUNT)
        && renderingCommands == Some(Recording(device, RenderRecording(swapChainExtent)))
        && computingCommands == ComputeBuffers(device, images, swapChainExtent)
        && log == old(log) + CreationEvents()
    {
      if created {
        return true;
      }
      BuildAll(swapChainExtent, images);
      return true;
    }

    /** The build branch of `create`, on an engine that is not created. */
    method BuildAll(swapChainExtent: Extent2D, images: seq<Handle>)
      requires Valid() && !created
      modifies this
      ensures Valid() && created
      ensures outdated == old(outdated) && paused == old(paused) && queue == old(queue)
      ensures device == old(device) + 1 && swapChainImages == images && swapExtent == swapChainExtent
      ensures passExtent == swapChainExtent && computeExtent == swapChainExtent
      ensures descriptors == InitialDescriptors(|images|)
      ensures poolBudget == DeclaredBudget(|images|, TEXTURE_COUNT, BUFFER_COUNT)
      ensures renderingCommands == Some(Recording(device, RenderRecording(swapChainExtent)))
      ensures computingCommands == ComputeBuffers(device, images, swapChainExtent)
      ensures log == old(log) + CreationEvents()
    {
      // The objects are built in the order of CreationEvents.
      log := log + CreationEvents();
      CreationFreesNothing();
      FreesValidAppend(old(log), CreationEvents());
      device := device + 1;
      swapChainImages := images;
      swapExtent := swapChainExtent;
      passExtent := swapExtent;
      poolBudget := DeclaredBudget(|swapChainImages|, TEXTURE_COUNT, BUFFER_COUNT);
      InitDescriptorSets();
      InitRenderingCommands();
      InitComputingCommands();
      created := true;
    }

    /**
     * `recreate`: false when not created; a no-op returning true when not
     * outdated; otherwise, after waiting for the device, builds a new surface,
     * recreates the swapchain, render pass and pipelines for the window's
     * extent, re-records the rendering buffer only, and clears `outdated`.
     * The compute buffers, the descriptor sets and the swapchain images are
     * kept.
     */
    method Recreate(windowExtent: Extent2D, newSwapExtent: Extent2D) returns (ok: bool)
      requires Valid()
      modifies this
      ensures Valid()
      ensures ok == old(created)
      ensures created == old(created) && paused == old(paused) && queue == old(queue)
      ensures device == old(device) && swapChainImages == old(swapChainImages)
      ensures poolBudget == old(poolBudget) && descriptors == old(descriptors)
      ensures computingCommands == old(computingCommands) && computeExtent == old(computeExtent)
      ensures !(old(created) && old(outdated)) ==>
        && outdated == old(outdated) && swapExtent == old(swapExtent) && passExtent == old(passExtent)
        && renderingCommands == old(renderingCommands) && log == old(log)
      ensures old(created) && old(outdated) ==>
        && !outdated && swapExtent == newSwapExtent && passExtent == windowExtent
        && renderingCommands == Some(Recording(device, RenderRecording(windowExtent)))
        && log == old(log) + RecreateEvents(windowExtent) + [FreeCommandBuffers(device, [device])]
    {
      if !created {
        return false;
      }
      if outdated {
        RebuildOutdated(windowExtent, newSwapExtent);
      }
      return true;
    }

    /** The rebuild branch of `recreate`, on a created and outdated engine. */
    method RebuildOutdated(windowExtent: Extent2D, newSwapExtent: Extent2D)
      requires Valid() && created && outdated
      modifies this
      ensures Valid()
      ensures created && paused == old(paused) && queue == old(queue)
      ensures device == old(device) && swapChainImages == old(swapChainImages)
      ensures poolBudget == old(poolBudget) && descriptors == old(descriptors)
      ensures computingCommands == old(computingCommands) && computeExtent == old(computeExtent)
      ensures !outdated && swapExtent == newSwapExtent && passExtent == windowExtent
      ensures renderingCommands == Some(Recording(device, RenderRecording(windowExtent)))
      ensures log == old(log) + RecreateEvents(windowExtent) + [FreeCommandBuffers(device, [device])]
    {
      // The objects are rebuilt in the order of RecreateEvents.
      log := log + RecreateEvents(windowExtent);
      RecreateFreesNothing(windowExtent);
      FreesValidAppend(old(log), RecreateEvents(windowExtent));
      swapExtent := newSwapExtent;
      passExtent := windowExtent;
      InitRenderingCommands();
      FreesValidAppend(old(log) + RecreateEvents(windowExtent), [FreeCommandBuffers(device, [device])]);
      outdated := false;
    }

    /** `outdate`: only marks the swapchain outdated. */
    method Outdate()
      requires Valid()
      modifies this
      ensures Valid() && outdated
      ensures created == old(created) && paused == old(paused) && device == old(device)
      ensures swapChainImages == old(swapChainImages) && swapExtent == old(swapExtent) && passExtent == old(passExtent)
      ensures poolBudget == old(poolBudget) && descriptors == old(descriptors)
      ensures renderingCommands == old(renderingCommands) && computingCommands == old(computingCommands)
      ensures computeExtent == old(computeExtent) && log == old(log) && queue == old(queue)
    {
      outdated := true;
    }

    /** `pause`: only sets `paused`. */
    method Pause()
      requires Valid()
      modifies this
      ensures Valid() && paused
      ensures created == old(created) && outdated == old(outdated) && device == old(device)
      ensures swapChainImages == old(swapChainImages) && swapExtent == old(swapExtent) && passExtent == old(passExtent)
      ensures poolBudget == old(poolBudget) && descriptors == old(descriptors)
      ensures renderingCommands == old(renderingCommands) && computingCommands == old(computingCommands)
      ensures computeExtent == old(computeExtent) && log == old(log) && queue == old(queue)
    {
      paused := true;
    }

    /**
     * `unpause`: clears `paused` and tells the scene to skip the paused time.
     * The scene exists only while created: it is unset before the first
     * `create` and deleted by `destroy`.
     */
    method Unpause()
      requires Valid() && created
      modifies this
      ensures Valid() && !paused
      ensures created == old(created) && outdated == old(outdated) && device == old(device)
      ensures swapChainImages == old(swapChainImages) && swapExtent == old(swapExtent) && passExtent == old(passExtent)
      ensures poolBudget == old(poolBudget) && descriptors == old(descriptors)
      ensures renderingCommands == old(renderingCommands) && computingCommands == old(computingCommands)
      ensures computeExtent == old(computeExtent) && queue == old(queue)
      ensures log == old(log) + [TimeSkipped]
    {
      paused := false;
      log := log + [TimeSkipped];
    }

    /** `onPause`. */
    method OnPause() returns (p: bool)
      ensures p == paused
    {
      p := paused;
    }

    /**
     * `drawFrame`, with the driver's acquire result, the index it acquired
     * and the present result as parameters. With the gate closed nothing
     * happens; otherwise the scene is updated, and once the acquire proceeds
     * the frame's four queue operations are submitted, the compute one
     * running the buffer recorded for the acquired image.
     */
    method DrawFrame(acquire: int, imageIndex: nat, present: int) returns (outcome: FrameOutcome)
      requires Valid()
      requires GateOpen() && AcquireProceeds(acquire) ==> imageIndex < |swapChainImages|
      modifies this
      ensures Valid()
      ensures created == old(created) && outdated == old(outdated) && paused == old(paused) && device == old(device)
      ensures swapChainImages == old(swapChainImages) && swapExtent == old(swapExtent) && passExtent == old(passExtent)
      ensures poolBudget == old(poolBudget) && descriptors == old(descriptors)
      ensures renderingCommands == old(renderingCommands) && computingCommands == old(computingCommands)
      ensures computeExtent == old(computeExtent)
      ensures outcome == FrameResult(old(GateOpen()), acquire, present)
      ensures queue == old(queue) + FrameQueue(old(GateOpen()), acquire, imageIndex)
      ensures log == old(log) + (if old(GateOpen()) then [SceneUpdated] else [])
      ensures old(GateOpen()) && AcquireProceeds(acquire) ==>
        computingCommands[imageIndex] ==
          Recording(device, ComputeRecording(imageIndex, swapChainImages[imageIndex], computeExtent))
    {
      if !created || outdated || paused {
        return NotPresented;
      }
      log := log + [SceneUpdated];
      if acquire == VK_ERROR_OUT_OF_DATE_KHR {
        return NotPresented;
      }
      if acquire != VK_SUBOPTIMAL_KHR && acquire != VK_SUCCESS {
        return Aborted;
      }
      queue := queue + [Acquire(ImageAvailable, imageIndex)];
      queue := queue + [Submit(GraphicsQueue, [], RenderingWork, [RenderingFinished])];
      queue := queue + [Submit(GraphicsQueue,
                               [Wait(RenderingFinished, STAGE_COMPUTE_SHADER), Wait(ImageAvailable, STAGE_COMPUTE_SHADER)],
                               ComputingWork(imageIndex), [ComputingFinished])];
      queue := queue + [Present(PresentQueue, [ComputingFinished], imageIndex)];
      assert queue == old(queue) + FrameOps(imageIndex);
      ReplayAppend({}, old(queue), FrameOps(imageIndex));
      FrameBalanced(imageIndex);
      if present == VK_ERROR_OUT_OF_DATE_KHR || present == VK_SUBOPTIMAL_KHR {
        return NotPresented;
      }
      if present != VK_SUCCESS {
        return Aborted;
      }
      return Presented;
    }

    /**
     * `destroy`: a no-op returning true when not created; otherwise waits
     * for the device, releases every object in the teardown order and clears
     * `created`. Unlike the source, the handles of the command buffers, which
     * die with the device's command pool, are dropped too.
     */
    method Destroy() returns (ok: bool)
      requires Valid()
      modifies this
      ensures Valid() && ok && !created
      ensures outdated == old(outdated) && paused == old(paused) && device == old(device) && queue == old(queue)
      ensures swapChainImages == old(swapChainImages) && swapExtent == old(swapExtent) && passExtent == old(passExtent)
      ensures poolBudget == old(poolBudget) && descriptors == old(descriptors) && computeExtent == old(computeExtent)
      ensures renderingCommands == None && computingCommands == []
      ensures log == old(log) + (if old(created) then TeardownEvents() else [])
    {
      if !created {
        return true;
      }
      log := log + TeardownEvents();
      TeardownFreesNothing();
      FreesValidAppend(old(log), TeardownEvents());
      renderingCommands := None;
      computingCommands := [];
      created := false;
      return true;
    }

    /**
     * `destroy` as the source writes it: the command-buffer handles of the
     * destroyed device are kept, so a later `create` frees them into the new
     * device's pool (see `StaleFreeAsWritten`).
     */
    method DestroyAsWritten() returns (ok: bool)
      modifies this
      ensures ok && !created
      ensures outdated == old(outdated) && paused == old(paused) && device == old(device) && queue == old(queue)
      ensures swapChainImages == old(swapChainImages) && swapExtent == old(swapExtent) && passExtent == old(passExtent)
      ensures poolBudget == old(poolBudget) && descriptors == old(descriptors) && computeExtent == old(computeExtent)
      ensures renderingCommands == old(renderingCommands) && computingCommands == old(computingCommands)
      ensures log == old(log) + (if old(created) then TeardownEvents() else [])
    {
      if !created {
        return true;
      }
      log := log + TeardownEvents();
      created := false;
      return true;
    }

    /** `initDescriptorSets`: one group per layout, with the start-up sets pushed in order. */
    method InitDescriptorSets()
      modifies this
      ensures descriptors == InitialDescriptors(|swapChainImages|)
      ensures created == old(created) && outdated == old(outdated) && paused == old(paused) && device == old(device)
      ensures swapChainImages == old(swapChainImages) && swapExtent == old(swapExtent) && passExtent == old(passExtent)
      ensures poolBudget == old(poolBudget) && computeExtent == old(computeExtent)
      ensures renderingCommands == old(renderingCommands) && computingCommands == old(computingCommands)
      ensures log == old(log) && queue == old(queue)
    {
      var groups := seq(GROUP_COUNT, _ => Group([], []));
      groups := groups[SCENE := Group(SCENE_LAYOUT, [SCENE_SET])];
      groups := groups[EARTH := Group(EARTH_LAYOUT, [EARTH_SET])];
      var shared := Group(CLOUDS_AND_SKYBOX_LAYOUT, [CLOUDS_SET]);
      shared := shared.(sets := shared.sets + [SKYBOX_SET]);
      assert shared.sets == [CLOUDS_SET, SKYBOX_SET];
      groups := groups[CLOUDS_AND_SKYBOX := shared];
      groups := groups[TONE_SRC := Group(TONE_LAYOUT, [TONE_SRC_SET])];
      var dst := Group(TONE_LAYOUT, []);
      var i := 0;
      while i < |swapChainImages|
        invariant 0 <= i <= |swapChainImages|
        invariant dst == Group(TONE_LAYOUT, ToneDstSets(i))
      {
        assert ToneDstSets(i) + [ToneDstSet(i)] == ToneDstSets(i + 1);
        dst := dst.(sets := dst.sets + [ToneDstSet(i)]);
        i := i + 1;
      }
      groups := groups[TONE_DST := dst];
      ghost var expected := InitialDescriptors(|swapChainImages|);
      assert groups[SCENE] == expected[SCENE] && groups[EARTH] == expected[EARTH];
      assert groups[CLOUDS_AND_SKYBOX] == expected[CLOUDS_AND_SKYBOX];
      assert groups[TONE_SRC] == expected[TONE_SRC] && groups[TONE_DST] == expected[TONE_DST];
      assert groups == expected;
      descriptors := groups;
    }

    /** `initRenderingCommands`: frees the buffer still held, then records a new one from the current pool. */
    method InitRenderingCommands()
      modifies this
      ensures renderingCommands == Some(Recording(device, RenderRecording(passExtent)))
      ensures log == old(log) + RenderingFree(old(renderingCommands), device)
      ensures created == old(created) && outdated == old(outdated) && paused == old(paused) && device == old(device)
      ensures swapChainImages == old(swapChainImages) && swapExtent == old(swapExtent) && passExtent == old(passExtent)
      ensures poolBudget == old(poolBudget) && descriptors == old(descriptors) && computeExtent == old(computeExtent)
      ensures computingCommands == old(computingCommands) && queue == old(queue)
    {
      if renderingCommands.Some? {
        log := log + [FreeCommandBuffers(device, [renderingCommands.value.pool])];
      }
      var cmds: seq<EngineCommand> := [];
      cmds := cmds + [BeginRenderPass(0, passExtent, |EarthPass.ClearValues()|)];
      cmds := cmds + [BindPipeline(GraphicsBind, SkyboxPipeline)];
      cmds := cmds + [BindDescriptorSets(GraphicsBind, SkyboxPipeline, [SetRef(SCENE, 0), SetRef(CLOUDS_AND_SKYBOX, 1)])];
      cmds := cmds + [DrawCube];
      cmds := cmds + [BindPipeline(GraphicsBind, EarthPipeline)];
      cmds := cmds + [BindDescriptorSets(GraphicsBind, EarthPipeline, [SetRef(SCENE, 0), SetRef(EARTH, 0)])];
      cmds := cmds + [DrawSphere];
      cmds := cmds + [BindPipeline(GraphicsBind, CloudsPipeline)];
      cmds := cmds + [BindDescriptorSets(GraphicsBind, CloudsPipeline, [SetRef(SCENE, 0), SetRef(CLOUDS_AND_SKYBOX, 0)])];
      cmds := cmds + [DrawSphere];
      cmds := cmds + [EndRenderPass];
      assert cmds == RenderRecording(passExtent);
      renderingCommands := Some(Recording(device, cmds));
    }

    /**
     * `initComputingCommands`: frees the buffers still held, then records one
     * compute buffer per swapchain image from the current pool.
     */
    method InitComputingCommands()
      modifies this
      ensures computingCommands == ComputeBuffers(device, swapChainImages, swapExtent)
      ensures computeExtent == swapExtent
      ensures log == old(log) + ComputingFree(old(computingCommands), device)
      ensures created == old(created) && outdated == old(outdated) && paused == old(paused) && device == old(device)
      ensures swapChainImages == old(swapChainImages) && swapExtent == old(swapExtent) && passExtent == old(passExtent)
      ensures poolBudget == old(poolBudget) && descriptors == old(descriptors)
      ensures renderingCommands == old(renderingCommands) && queue == old(queue)
    {
      if |computingCommands| > 0 {
        log := log + [FreeCommandBuffers(device, Pools(computingCommands))];
      }
      var count := |swapChainImages|;
      var buffers: seq<Recording> := [];
      var i := 0;
      while i < count
        invariant 0 <= i <= count
        invariant buffers == ComputeBuffers(device, swapChainImages[..i], swapExtent)
      {
        var image := swapChainImages[i];
        var cmds: seq<EngineCommand> := [];
        cmds := cmds + [BindPipeline(ComputeBind, TonePipeline)];
        cmds := cmds + [BindDescriptorSets(ComputeBind, TonePipeline, [SetRef(TONE_SRC, 0), SetRef(TONE_DST, i)])];
        cmds := cmds + [Barrier(PipelineBarrier(STAGE_TOP_OF_PIPE, STAGE_COMPUTE_SHADER,
          ImageBarrier(ACCESS_NONE, ACCESS_SHADER_WRITE, Undefined, General, image, TONE_RANGE)))];
        cmds := cmds + [Dispatch(swapExtent.width / 8, swapExtent.height / 8, 1)];
        cmds := cmds + [Barrier(PipelineBarrier(STAGE_COMPUTE_SHADER, STAGE_BOTTOM_OF_PIPE,
          ImageBarrier(ACCESS_SHADER_WRITE, ACCESS_UNIFORM_READ, General, PresentSrc, image, TONE_RANGE)))];
        assert cmds == ComputeRecording(i, image, swapExtent);
        assert swapChainImages[..i + 1] == swapChainImages[..i] + [image];
        buffers := buffers + [Recording(device, cmds)];
        i := i + 1;
      }
      assert swapChainImages[..count] == swapChainImages;
      computingCommands := buffers;
      computeExtent := swapExtent;
    }
  }

  /**
   * The defect `DestroyAsWritten` leaves: a buffer recorded on device
   * generation `g` and still held when `create` makes device `g + 1` is freed
   * into the new device's pool.
   */
  lemma StaleFreeAsWritten(r: Recording)
    ensures !FreesValid(RenderingFree(Some(r), r.pool + 1))
    ensures forall rs: seq<Recording> :: |rs| > 0 && rs[0].pool == r.pool ==> !FreesValid(ComputingFree(rs, r.pool + 1))
  {
    var e := RenderingFree(Some(r), r.pool + 1)[0];
    assert e in RenderingFree(Some(r), r.pool + 1) && e.buffersFrom[0] != e.pool;
    forall rs: seq<Recording> | |rs| > 0 && rs[0].pool == r.pool
      ensures !FreesValid(ComputingFree(rs, r.pool + 1))
    {
      var f := ComputingFree(rs, r.pool + 1)[0];
      assert f in ComputingFree(rs, r.pool + 1) && f.buffersFrom[0] != f.pool;
    }
  }
}
