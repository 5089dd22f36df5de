/**
 * The slice of the Vulkan vocabulary that the renderer's resource layer uses.
 * Driver objects are opaque integer handles; every flag word keeps the bit
 * value Vulkan gives it; every driver call the layer makes is a `Call` appended
 * to the `Device` log, and every `vkCmd*` is a `Command` appended to a
 * `CommandBuffer`.
 */
module Vk {

  datatype Option<T> = None | Some(value: T)

  /** An opaque driver object: image, view, memory, sampler, render pass, ... */
  type Handle = nat

  /** A 32-bit unsigned value, as `uint32_t` in the source. */
  type U32 = x: nat | x < 0x1_0000_0000

  const U32_MODULUS: nat := 0x1_0000_0000

  /** A flag word (`VkAccessFlags`, `VkPipelineStageFlags`, ...). */
  type Flags = bv32

  // VkAccessFlagBits
  const ACCESS_NONE: Flags := 0
  const ACCESS_UNIFORM_READ: Flags := 0x8
  const ACCESS_SHADER_READ: Flags := 0x20
  const ACCESS_SHADER_WRITE: Flags := 0x40
  const ACCESS_COLOR_ATTACHMENT_READ: Flags := 0x80
  const ACCESS_COLOR_ATTACHMENT_WRITE: Flags := 0x100
  const ACCESS_DEPTH_STENCIL_ATTACHMENT_WRITE: Flags := 0x400
  const ACCESS_TRANSFER_READ: Flags := 0x800
  const ACCESS_TRANSFER_WRITE: Flags := 0x1000
  const ACCESS_HOST_WRITE: Flags := 0x4000
  const ACCESS_MEMORY_READ: Flags := 0x8000

  // VkPipelineStageFlagBits
  const STAGE_TOP_OF_PIPE: Flags := 0x1
  const STAGE_EARLY_FRAGMENT_TESTS: Flags := 0x100
  const STAGE_COLOR_ATTACHMENT_OUTPUT: Flags := 0x400
  const STAGE_COMPUTE_SHADER: Flags := 0x800
  const STAGE_TRANSFER: Flags := 0x1000
  const STAGE_BOTTOM_OF_PIPE: Flags := 0x2000

  // VkShaderStageFlagBits
  const SHADER_VERTEX: Flags := 0x1
  const SHADER_FRAGMENT: Flags := 0x10
  const SHADER_COMPUTE: Flags := 0x20

  // VkImageAspectFlagBits
  const ASPECT_COLOR: Flags := 0x1
  const ASPECT_DEPTH: Flags := 0x2
  const ASPECT_STENCIL: Flags := 0x4

  // VkImageCreateFlagBits
  const IMAGE_CREATE_CUBE_COMPATIBLE: Flags := 0x10

  // VkImageUsageFlagBits
  const USAGE_TRANSFER_SRC: Flags := 0x1
  const USAGE_TRANSFER_DST: Flags := 0x2
  const USAGE_COLOR_ATTACHMENT: Flags := 0x10
  const USAGE_DEPTH_STENCIL_ATTACHMENT: Flags := 0x20

  // VkDependencyFlagBits
  const DEPENDENCY_BY_REGION: Flags := 0x1

  // VkResult
  const VK_SUCCESS: int := 0
  const VK_SUBOPTIMAL_KHR: int := 1000001003
  const VK_ERROR_OUT_OF_DATE_KHR: int := -1000001004

  /** VkFormat, kept as its numeric value. */
  type Format = nat
  const FORMAT_R16G16B16A16_SFLOAT: Format := 97

  /** VkSampleCountFlagBits, kept as its numeric value. */
  type SampleCount = nat
  const SAMPLE_COUNT_1: SampleCount := 1

  /** The image layouts the layer names (VkImageLayout). */
  datatype Layout =
    | Undefined
    | General
    | ColorAttachmentOptimal
    | DepthStencilAttachmentOptimal
    | DepthStencilReadOnlyOptimal
    | ShaderReadOnlyOptimal
    | TransferSrcOptimal
    | TransferDstOptimal
    | Preinitialized
    | PresentSrc

  datatype ImageType = Image1D | Image2D | Image3D

  datatype ViewType = View1D | View2D | View3D | ViewCube | View1DArray | View2DArray | ViewCubeArray

  datatype Filter = Nearest | Linear

  datatype Extent2D = Extent2D(width: U32, height: U32)
  datatype Extent3D = Extent3D(width: U32, height: U32, depth: U32)
  datatype Offset3D = Offset3D(x: int, y: int, z: int)

  /** VkImageSubresourceRange: mips [baseMipLevel, +levelCount) x layers [baseArrayLayer, +layerCount). */
  datatype SubresourceRange = SubresourceRange(
    aspect: Flags, baseMipLevel: nat, levelCount: nat, baseArrayLayer: nat, layerCount: nat)

  /** VkImageSubresourceLayers: one mip level, layers [baseArrayLayer, +layerCount). */
  datatype SubresourceLayers = SubresourceLayers(
    aspect: Flags, mipLevel: nat, baseArrayLayer: nat, layerCount: nat)

  /** True when a sub-range lies inside an image of `mips` levels and `layers` layers. */
  predicate RangeWithin(r: SubresourceRange, mips: nat, layers: nat) {
    r.baseMipLevel + r.levelCount <= mips && r.baseArrayLayer + r.layerCount <= layers
  }

  datatype ImageBarrier = ImageBarrier(
    srcAccess: Flags, dstAccess: Flags,
    oldLayout: Layout, newLayout: Layout,
    image: Handle, range: SubresourceRange)

  datatype BlitRegion = BlitRegion(
    srcSubresource: SubresourceLayers, srcFrom: Offset3D, srcTo: Offset3D,
    dstSubresource: SubresourceLayers, dstFrom: Offset3D, dstTo: Offset3D)

  datatype CopyRegion = CopyRegion(
    srcSubresource: SubresourceLayers, dstSubresource: SubresourceLayers, extent: Extent3D)

  /** One `vkCmd*` call recorded into a command buffer. */
  datatype Command =
    | PipelineBarrier(srcStage: Flags, dstStage: Flags, barrier: ImageBarrier)
    | BlitImage(src: Handle, srcLayout: Layout, dst: Handle, dstLayout: Layout,
                region: BlitRegion, filter: Filter)
    | CopyImage(src: Handle, srcLayout: Layout, dst: Handle, dstLayout: Layout, copy: CopyRegion)

  /** VkImageCreateInfo, without the constant structure-type and sharing fields. */
  datatype ImageCreateInfo = ImageCreateInfo(
    flags: Flags, imageType: ImageType, format: Format, extent: Extent3D,
    mipLevels: nat, arrayLayers: nat, samples: SampleCount, usage: Flags, initialLayout: Layout)

  /** VkBufferImageCopy for a tightly packed staging buffer. */
  datatype BufferImageCopy = BufferImageCopy(
    bufferOffset: nat, imageSubresource: SubresourceLayers, imageOffset: Offset3D, imageExtent: Extent3D)

  datatype LoadOp = LoadOpLoad | LoadOpClear | LoadOpDontCare
  datatype StoreOp = StoreOpStore | StoreOpDontCare

  /** VkAttachmentDescription. */
  datatype AttachmentDescription = AttachmentDescription(
    format: Format, samples: SampleCount,
    loadOp: LoadOp, storeOp: StoreOp, stencilLoadOp: LoadOp, stencilStoreOp: StoreOp,
    initialLayout: Layout, finalLayout: Layout)

  /** VkAttachmentReference: an index into the attachment descriptions and the layout during the subpass. */
  datatype AttachmentReference = AttachmentReference(attachment: nat, layout: Layout)

  /** VkSubpassDescription of a graphics subpass without input, resolve or preserve attachments. */
  datatype SubpassDescription = SubpassDescription(
    colorAttachments: seq<AttachmentReference>, depthStencilAttachment: Option<AttachmentReference>)

  /** VK_SUBPASS_EXTERNAL, `~0U`. */
  const SUBPASS_EXTERNAL: nat := 0xFFFF_FFFF

  /** VkSubpassDependency. */
  datatype SubpassDependency = SubpassDependency(
    srcSubpass: nat, dstSubpass: nat, srcStage: Flags, dstStage: Flags,
    srcAccess: Flags, dstAccess: Flags, flags: Flags)

  /** VkRenderPassCreateInfo. */
  datatype RenderPassInfo = RenderPassInfo(
    attachments: seq<AttachmentDescription>, subpasses: seq<SubpassDescription>,
    dependencies: seq<SubpassDependency>)

  /** One call into the driver that is not a command-buffer command. */
  datatype Call =
    | CreateImage(image: Handle, info: ImageCreateInfo)
    | AllocateMemory(memory: Handle, image: Handle)
    | BindImageMemory(image: Handle, memory: Handle)
    | CreateImageView(view: Handle, image: Handle, viewType: ViewType, format: Format, range: SubresourceRange)
    | CreateSampler(sampler: Handle, image: Handle, filter: Filter)
    | SubmitOneTime(commands: seq<Command>)
    | CreateStagingBuffer(size: nat)
    | StageLayer(source: nat, offset: nat, size: nat)
    | CopyBufferToImage(image: Handle, regions: seq<BufferImageCopy>)
    | CreateRenderPass(renderPass: Handle, passInfo: RenderPassInfo)
    | CreateFramebuffer(framebuffer: Handle, views: seq<Handle>)
    | DestroyImageView(view: Handle)
    | DestroyImage(image: Handle)
    | FreeMemory(memory: Handle)

  /** The commands of every one-time command buffer submitted in `calls`, in order. */
  function OneTimeCommands(calls: seq<Call>): seq<Command>
    decreases |calls|
  {
    if calls == [] then []
    else
      var last := calls[|calls| - 1];
      OneTimeCommands(calls[..|calls| - 1]) + (if last.SubmitOneTime? then last.commands else [])
  }

  lemma {:induction false} OneTimeCommandsAppend(a: seq<Call>, b: seq<Call>)
    ensures OneTimeCommands(a + b) == OneTimeCommands(a) + OneTimeCommands(b)
    decreases |b|
  {
    if b == [] {
      assert a + b == a;
    } else {
      var b' := b[..|b| - 1];
      assert (a + b)[..|a + b| - 1] == a + b';
      OneTimeCommandsAppend(a, b');
    }
  }

  /**
   * The logical device: the driver calls made through it, in order, and a
   * counter from which it hands out fresh handles.
   */
  class Device {
    var calls: seq<Call>
    var nextHandle: Handle

    constructor ()
      ensures calls == [] && nextHandle == 0
    {
      calls := [];
      nextHandle := 0;
    }

    /** A handle no earlier call has returned. */
    method NewHandle() returns (h: Handle)
      modifies this
      ensures h == old(nextHandle) && nextHandle == h + 1
      ensures calls == old(calls)
    {
      h := nextHandle;
      nextHandle := nextHandle + 1;
    }

    method Issue(c: Call)
      modifies this
      ensures calls == old(calls) + [c]
      ensures nextHandle == old(nextHandle)
      ensures OneTimeCommands(calls) ==
              OneTimeCommands(old(calls)) + (if c.SubmitOneTime? then c.commands else [])
    {
      calls := calls + [c];
      assert calls[..|calls| - 1] == old(calls);
    }
  }

  /** A command buffer in the recording state. */
  class CommandBuffer {
    var commands: seq<Command>

    constructor ()
      ensures commands == []
    {
      commands := [];
    }

    method Record(c: Command)
      modifies this
      ensures commands == old(commands) + [c]
    {
      commands := commands + [c];
    }
  }
}
