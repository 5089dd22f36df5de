/**
 * The offscreen HDR render pass of the globe (`EarthRenderPass`): a mip-mapped
 * color texture and a depth image as attachments, one subpass rendering into
 * both, two mirrored external dependencies, and a single framebuffer.
 */
module EarthPass {
  import opened Vk
  import opened Images

  /** The clear values, kept as opaque tags: opaque black for color, depth 1 / stencil 0. */
  datatype ClearValue = ColorClear | DepthStencilClear

  /** `getColorAttachmentCount`: the number of color attachments the subpass declares. */
  function ColorAttachmentCount(): (r: nat)
    ensures forall cf, cs, df, ds :: r == |EarthRenderPassInfo(cf, cs, df, ds).subpasses[0].colorAttachments|
  {
    1
  }

  /** `getClearValues`: one entry per attachment, the color clears first and one depth clear last. */
  function ClearValues(): (r: seq<ClearValue>)
    ensures |r| == ColorAttachmentCount() + 1
    ensures forall k :: 0 <= k < |r| ==> (r[k] == ColorClear <==> k < ColorAttachmentCount())
  {
    [ColorClear, DepthStencilClear]
  }

  const COLOR_FORMAT: Format := FORMAT_R16G16B16A16_SFLOAT
  const COLOR_USAGE: Flags := USAGE_COLOR_ATTACHMENT | USAGE_TRANSFER_SRC | USAGE_TRANSFER_DST
  const DEPTH_ASPECT: Flags := ASPECT_DEPTH | ASPECT_STENCIL

  /** The color image's extent: the pass extent, one deep. */
  function AttachmentExtent(e: Extent2D): Extent3D {
    Extent3D(e.width, e.height, 1)
  }

  /** View 0 of the color texture, and the range made COLOR_ATTACHMENT_OPTIMAL: mip 0. */
  const COLOR_TARGET_RANGE: SubresourceRange := SubresourceRange(ASPECT_COLOR, 0, 1, 0, 1)

  /** View 1 of the color texture: the last mip level. */
  function LastLevelRange(mips: nat): SubresourceRange
    requires mips >= 1
  {
    SubresourceRange(ASPECT_COLOR, mips - 1, 1, 0, 1)
  }

  /** The range made SHADER_READ_ONLY_OPTIMAL: every mip but the first. */
  function SampledLevelsRange(mips: nat): SubresourceRange
    requires mips >= 1
  {
    SubresourceRange(ASPECT_COLOR, 1, mips - 1, 0, 1)
  }

  /** The depth image's transition range: mip 0, layer 0, depth and stencil. */
  const DEPTH_RANGE: SubresourceRange := SubresourceRange(DEPTH_ASPECT, 0, 1, 0, 1)

  /** The two initial transitions of the color texture. */
  function ColorTransitions(image: Handle, mips: nat): seq<Command>
    requires mips >= 1
  {
    [ TransitionBarrier(image, Undefined, ColorAttachmentOptimal, STAGE_TOP_OF_PIPE,
                        STAGE_COLOR_ATTACHMENT_OUTPUT, COLOR_TARGET_RANGE),
      TransitionBarrier(image, Undefined, ShaderReadOnlyOptimal, STAGE_TOP_OF_PIPE,
                        STAGE_COMPUTE_SHADER, SampledLevelsRange(mips)) ]
  }

  function DepthTransition(image: Handle): Command {
    TransitionBarrier(image, Undefined, DepthStencilAttachmentOptimal, STAGE_TOP_OF_PIPE,
                      STAGE_EARLY_FRAGMENT_TESTS, DEPTH_RANGE)
  }

  predicate CoversLevel(r: SubresourceRange, level: nat) {
    r.baseMipLevel <= level < r.baseMipLevel + r.levelCount
  }

  /**
   * The color texture's views and transitions stay inside its mip chain, and
   * the two transitions partition it: level 0 is the render target and every
   * other level is sampled (none when there is a single level).
   */
  lemma ColorRangesPartitionMips(mips: nat)
    requires mips >= 1
    ensures RangeWithin(COLOR_TARGET_RANGE, mips, 1) && RangeWithin(LastLevelRange(mips), mips, 1)
    ensures RangeWithin(SampledLevelsRange(mips), mips, 1)
    ensures forall level: nat :: CoversLevel(COLOR_TARGET_RANGE, level) <==> level == 0
    ensures forall level: nat :: CoversLevel(SampledLevelsRange(mips), level) <==> 1 <= level < mips
    ensures forall level: nat :: level < mips ==>
      (CoversLevel(COLOR_TARGET_RANGE, level) <==> !CoversLevel(SampledLevelsRange(mips), level))
    ensures mips == 1 ==> SampledLevelsRange(mips).levelCount == 0
  {
  }

  /**
   * Run through the layout tracker from UNDEFINED, the two transitions are
   * legal and leave level 0 in COLOR_ATTACHMENT_OPTIMAL and the rest in
   * SHADER_READ_ONLY_OPTIMAL.
   */
  lemma ColorTransitionLayouts(image: Handle, mips: nat)
    requires mips >= 1
    ensures Consistent(image, Uniform(mips, Undefined), ColorTransitions(image, mips))
    ensures Run(image, Uniform(mips, Undefined), ColorTransitions(image, mips)) ==
            [ColorAttachmentOptimal] + Uniform(mips - 1, ShaderReadOnlyOptimal)
  {
    var t := ColorTransitions(image, mips);
    var s0 := Uniform(mips, Undefined);
    var s1 := Apply(image, s0, t[0]);
    assert t == [t[0]] + [t[1]];
    RunAppend(image, s0, [t[0]], [t[1]]);
    RunOne(image, s0, t[0]);
    RunOne(image, s1, t[1]);
    assert Apply(image, s1, t[1]) == [ColorAttachmentOptimal] + Uniform(mips - 1, ShaderReadOnlyOptimal);
  }

  /** Where the depth image is one level and one layer, its full view and its transition cover the same range. */
  lemma DepthRangesAgree(e: Extent3D)
    ensures SubresourceRange(DEPTH_ASPECT, 0, 1, 0, 1) == DEPTH_RANGE
    ensures RangeWithin(DEPTH_RANGE, 1, 1)
    ensures FullViewType(e, 1, false).Some? &&
            FullViewType(e, 1, false).value == (if e.height > 0 then View2D else View1D)
  {
  }

  function ColorDescription(format: Format, samples: SampleCount): AttachmentDescription {
    AttachmentDescription(format, samples, LoadOpDontCare, StoreOpStore, LoadOpDontCare, StoreOpDontCare,
                          ColorAttachmentOptimal, ColorAttachmentOptimal)
  }

  function DepthDescription(format: Format, samples: SampleCount): AttachmentDescription {
    AttachmentDescription(format, samples, LoadOpClear, StoreOpDontCare, LoadOpDontCare, StoreOpDontCare,
                          DepthStencilAttachmentOptimal, DepthStencilAttachmentOptimal)
  }

  const COLOR_REFERENCE: AttachmentReference := AttachmentReference(0, ColorAttachmentOptimal)
  const DEPTH_REFERENCE: AttachmentReference := AttachmentReference(1, DepthStencilAttachmentOptimal)

  const INPUT_DEPENDENCY: SubpassDependency :=
    SubpassDependency(SUBPASS_EXTERNAL, 0, STAGE_BOTTOM_OF_PIPE, STAGE_COLOR_ATTACHMENT_OUTPUT,
                      ACCESS_MEMORY_READ, ACCESS_COLOR_ATTACHMENT_READ | ACCESS_COLOR_ATTACHMENT_WRITE,
                      DEPENDENCY_BY_REGION)

  const OUTPUT_DEPENDENCY: SubpassDependency :=
    SubpassDependency(0, SUBPASS_EXTERNAL, STAGE_COLOR_ATTACHMENT_OUTPUT, STAGE_BOTTOM_OF_PIPE,
                      ACCESS_COLOR_ATTACHMENT_READ | ACCESS_COLOR_ATTACHMENT_WRITE, ACCESS_MEMORY_READ,
                      DEPENDENCY_BY_REGION)

  /** A reference names an existing description whose initial and final layouts are the reference's layout. */
  predicate ReferenceAgrees(descriptions: seq<AttachmentDescription>, r: AttachmentReference) {
    r.attachment < |descriptions| &&
    descriptions[r.attachment].initialLayout == r.layout &&
    descriptions[r.attachment].finalLayout == r.layout
  }

  /** `b` is `a` with source and destination swapped. */
  predicate Mirrored(a: SubpassDependency, b: SubpassDependency) {
    a.srcSubpass == b.dstSubpass && a.dstSubpass == b.srcSubpass &&
    a.srcStage == b.dstStage && a.dstStage == b.srcStage &&
    a.srcAccess == b.dstAccess && a.dstAccess == b.srcAccess &&
    a.flags == b.flags
  }

  /** Attachment `k` is one of the subpass's color attachments. */
  predicate IsColorAttachment(info: RenderPassInfo, k: nat)
    requires |info.subpasses| == 1
  {
    exists j :: 0 <= j < |info.subpasses[0].colorAttachments| &&
      info.subpasses[0].colorAttachments[j].attachment == k
  }

  /** What `createRenderPass` declares. */
  function EarthRenderPassInfo(colorFormat: Format, colorSamples: SampleCount,
                               depthFormat: Format, depthSamples: SampleCount): (r: RenderPassInfo)
    ensures |r.attachments| == 2 && |r.subpasses| == 1 && |r.dependencies| == 2
    ensures r.attachments[0].format == colorFormat && r.attachments[0].samples == colorSamples
    ensures r.attachments[1].format == depthFormat && r.attachments[1].samples == depthSamples
    ensures |r.subpasses[0].colorAttachments| == 1 && r.subpasses[0].depthStencilAttachment.Some?
    ensures r.subpasses[0].colorAttachments[0].attachment == 0
    ensures r.subpasses[0].depthStencilAttachment.value.attachment == 1
    ensures forall j :: 0 <= j < |r.subpasses[0].colorAttachments| ==>
      ReferenceAgrees(r.attachments, r.subpasses[0].colorAttachments[j])
    ensures ReferenceAgrees(r.attachments, r.subpasses[0].depthStencilAttachment.value)
    ensures r.attachments[0].loadOp == LoadOpDontCare && r.attachments[0].storeOp == StoreOpStore
    ensures forall k :: 0 <= k < |r.attachments| ==>
      r.attachments[k].stencilLoadOp == LoadOpDontCare && r.attachments[k].stencilStoreOp == StoreOpDontCare
    ensures r.attachments[1].loadOp == LoadOpClear && r.attachments[1].storeOp == StoreOpDontCare
    ensures r.subpasses[0].colorAttachments[0].layout == ColorAttachmentOptimal
    ensures r.subpasses[0].depthStencilAttachment.value.layout == DepthStencilAttachmentOptimal
    ensures r.dependencies[0].srcSubpass == SUBPASS_EXTERNAL && r.dependencies[0].dstSubpass == 0
    ensures r.dependencies[0].srcStage == STAGE_BOTTOM_OF_PIPE
    ensures r.dependencies[0].dstStage == STAGE_COLOR_ATTACHMENT_OUTPUT
    ensures r.dependencies[0].srcAccess == ACCESS_MEMORY_READ
    ensures r.dependencies[0].dstAccess == ACCESS_COLOR_ATTACHMENT_READ | ACCESS_COLOR_ATTACHMENT_WRITE
    ensures Mirrored(r.dependencies[0], r.dependencies[1])
    ensures forall d :: d in r.dependencies ==> d.flags & DEPENDENCY_BY_REGION != 0
  {
    RenderPassInfo(
      [ColorDescription(colorFormat, colorSamples), DepthDescription(depthFormat, depthSamples)],
      [SubpassDescription([COLOR_REFERENCE], Some(DEPTH_REFERENCE))],
      [INPUT_DEPENDENCY, OUTPUT_DEPENDENCY])
  }

  /**
   * What the orchestrator reads when it begins the pass agrees with the
   * declaration: one clear value per attachment, a color clear exactly at the
   * color attachments and a depth clear at the depth attachment, and the
   * color-attachment count is the subpass's.
   */
  lemma ClearValuesMatchPass(colorFormat: Format, colorSamples: SampleCount,
                             depthFormat: Format, depthSamples: SampleCount)
    ensures var info := EarthRenderPassInfo(colorFormat, colorSamples, depthFormat, depthSamples);
      && |ClearValues()| == |info.attachments|
      && ColorAttachmentCount() == |info.subpasses[0].colorAttachments|
      && (forall k: nat :: k < |ClearValues()| ==> (ClearValues()[k] == ColorClear <==> IsColorAttachment(info, k)))
      && ClearValues()[info.subpasses[0].depthStencilAttachment.value.attachment] == DepthStencilClear
  {
    var info := EarthRenderPassInfo(colorFormat, colorSamples, depthFormat, depthSamples);
    assert IsColorAttachment(info, 0) by {
      assert info.subpasses[0].colorAttachments[0].attachment == 0;
    }
  }

  /** The attachments as created: the color texture's and the depth image's parameters and views. */
  ghost predicate ColorTextureAsDeclared(img: Image, e: Extent2D, samples: SampleCount)
    reads img
  {
    && img.Valid() && !img.swapChainImage && !img.cubeMap
    && img.format == COLOR_FORMAT && img.extent == AttachmentExtent(e)
    && img.mipLevels == MipLevelCount(AttachmentExtent(e)) && img.arrayLayers == 1
    && img.sampleCount == samples
    && |img.views| == 2
    && img.views[0].viewType == View2D && img.views[0].range == COLOR_TARGET_RANGE
    && img.views[1].viewType == View2D && img.views[1].range == LastLevelRange(img.mipLevels)
  }

  ghost predicate DepthImageAsDeclared(img: Image, e: Extent2D, samples: SampleCount, format: Format)
    reads img
  {
    && img.Valid() && !img.swapChainImage && !img.cubeMap
    && img.format == format && img.extent == AttachmentExtent(e)
    && img.mipLevels == 1 && img.arrayLayers == 1 && img.sampleCount == samples
    && |img.views| == 1
    && img.views[0].viewType == FullViewType(AttachmentExtent(e), 1, false).value
    && img.views[0].range == DEPTH_RANGE
  }

  class EarthRenderPass {
    const device: Device
    const extent: Extent2D
    const sampleCount: SampleCount
    /** Chosen by the render-pass base class, which is not part of this model. */
    const depthAttachmentFormat: Format
    var colorTexture: Image?
    /** The sampler the color texture is read through. */
    var colorSampler: Option<Handle>
    var depthImage: Image?
    var attachments: seq<Image>
    var renderPass: Option<Handle>
    /** The framebuffers' handles, each with the views it binds. */
    var framebuffers: seq<(Handle, seq<Handle>)>

    constructor (device: Device, attachmentExtent: Extent2D, sampleCount: SampleCount, depthAttachmentFormat: Format)
      ensures this.device == device && extent == attachmentExtent
      ensures this.sampleCount == sampleCount && this.depthAttachmentFormat == depthAttachmentFormat
      ensures colorTexture == null && depthImage == null && colorSampler == None
      ensures attachments == [] && renderPass == None && framebuffers == []
    {
      this.device := device;
      this.extent := attachmentExtent;
      this.sampleCount := sampleCount;
      this.depthAttachmentFormat := depthAttachmentFormat;
      colorTexture := null;
      colorSampler := None;
      depthImage := null;
      attachments := [];
      renderPass := None;
      framebuffers := [];
    }

    /**
     * `createAttachments`: the color texture with its two views and sampler,
     * its initial transitions, then the depth image, its full view and its
     * transition; the attachment list is color then depth.
     */
    method CreateAttachments(colorFormatSupportsStorage: bool)
      requires colorFormatSupportsStorage
      modifies this, device
      ensures colorTexture != null && depthImage != null
      ensures fresh(colorTexture) && fresh(depthImage)
      ensures colorTexture.device == device && depthImage.device == device
      ensures ColorTextureAsDeclared(colorTexture, extent, sampleCount)
      ensures DepthImageAsDeclared(depthImage, extent, sampleCount, depthAttachmentFormat)
      ensures colorSampler.Some?
      ensures attachments == [colorTexture, depthImage]
      ensures renderPass == old(renderPass) && framebuffers == old(framebuffers)
      ensures OneTimeCommands(device.calls) == OneTimeCommands(old(device.calls)) +
              ColorTransitions(colorTexture.image, colorTexture.mipLevels) + [DepthTransition(depthImage.image)]
    {
      var color, sampler := NewColorTexture();
      var depth := NewDepthImage();
      colorTexture := color;
      colorSampler := Some(sampler);
      depthImage := depth;
      attachments := [color, depth];
    }

    /** The color half of `createAttachments`. */
    method NewColorTexture() returns (color: Image, sampler: Handle)
      modifies device
      ensures fresh(color) && color.device == device
      ensures ColorTextureAsDeclared(color, extent, sampleCount)
      ensures OneTimeCommands(device.calls) == OneTimeCommands(old(device.calls)) +
              ColorTransitions(color.image, color.mipLevels)
    {
      var attachmentExtent := AttachmentExtent(extent);
      var mips := MipLevelCount(attachmentExtent);
      color := new Image(device, 0, COLOR_FORMAT, attachmentExtent, mips, 1, sampleCount, COLOR_USAGE, false);
      color.PushView(View2D, COLOR_TARGET_RANGE);
      color.PushView(View2D, LastLevelRange(color.mipLevels));
      sampler := device.NewHandle();
      device.Issue(CreateSampler(sampler, color.image, Nearest));
      ghost var before := OneTimeCommands(device.calls);
      assert before == OneTimeCommands(old(device.calls));
      color.TransitLayout(Undefined, ColorAttachmentOptimal, STAGE_TOP_OF_PIPE, STAGE_COLOR_ATTACHMENT_OUTPUT,
                          COLOR_TARGET_RANGE);
      color.TransitLayout(Undefined, ShaderReadOnlyOptimal, STAGE_TOP_OF_PIPE, STAGE_COMPUTE_SHADER,
                          SampledLevelsRange(color.mipLevels));
    }

    /** The depth half of `createAttachments`. */
    method NewDepthImage() returns (depth: Image)
      modifies device
      ensures fresh(depth) && depth.device == device
      ensures DepthImageAsDeclared(depth, extent, sampleCount, depthAttachmentFormat)
      ensures OneTimeCommands(device.calls) == OneTimeCommands(old(device.calls)) + [DepthTransition(depth.image)]
    {
      var attachmentExtent := AttachmentExtent(extent);
      depth := new Image(device, 0, depthAttachmentFormat, attachmentExtent, 1, 1, sampleCount,
                         USAGE_DEPTH_STENCIL_ATTACHMENT, false);
      depth.PushFullView(DEPTH_ASPECT);
      ghost var before := OneTimeCommands(device.calls);
      assert before == OneTimeCommands(old(device.calls));
      depth.TransitLayout(Undefined, DepthStencilAttachmentOptimal, STAGE_TOP_OF_PIPE, STAGE_EARLY_FRAGMENT_TESTS,
                          DEPTH_RANGE);
    }

    /** `createRenderPass`: declares the pass over the formats and sample counts of the attachments. */
    method CreateRenderPass()
      requires colorTexture != null && depthImage != null
      modifies this, device
      ensures colorTexture == old(colorTexture) && depthImage == old(depthImage)
      ensures renderPass == Some(old(device.nextHandle))
      ensures device.nextHandle == old(device.nextHandle) + 1
      ensures device.calls == old(device.calls) +
              [Call.CreateRenderPass(renderPass.value,
                 EarthRenderPassInfo(colorTexture.format, colorTexture.sampleCount,
                                     depthImage.format, depthImage.sampleCount))]
      ensures colorSampler == old(colorSampler) && attachments == old(attachments)
      ensures framebuffers == old(framebuffers)
    {
      var info := EarthRenderPassInfo(colorTexture.format, colorTexture.sampleCount,
                                      depthImage.format, depthImage.sampleCount);
      var h := device.NewHandle();
      device.Issue(Call.CreateRenderPass(h, info));
      renderPass := Some(h);
    }

    /** `createFramebuffers`: one framebuffer binding view 0 of the color texture and of the depth image. */
    method CreateFramebuffers()
      requires colorTexture != null && depthImage != null
      requires |colorTexture.views| >= 1 && |depthImage.views| >= 1
      modifies this, device
      ensures colorTexture == old(colorTexture) && depthImage == old(depthImage)
      ensures framebuffers == old(framebuffers) +
              [(old(device.nextHandle), [colorTexture.views[0].handle, depthImage.views[0].handle])]
      ensures device.nextHandle == old(device.nextHandle) + 1
      ensures device.calls == old(device.calls) +
              [CreateFramebuffer(old(device.nextHandle), [colorTexture.views[0].handle, depthImage.views[0].handle])]
      ensures colorSampler == old(colorSampler) && attachments == old(attachments)
      ensures renderPass == old(renderPass)
    {
      var views := [colorTexture.views[0].handle, depthImage.views[0].handle];
      var h := device.NewHandle();
      device.Issue(CreateFramebuffer(h, views));
      framebuffers := framebuffers + [(h, views)];
    }

    /**
     * The pass is coherent once built: the attachment list, the declared
     * descriptions and the framebuffer's views agree position by position, and
     * there is exactly one framebuffer.
     */
    ghost predicate Coherent(info: RenderPassInfo)
      reads this, attachments
    {
      && |attachments| == 2 && |info.attachments| == 2 && |framebuffers| == 1
      && |framebuffers[0].1| == 2
      && renderPass.Some?
      && forall k :: 0 <= k < 2 ==>
           && info.attachments[k].format == attachments[k].format
           && info.attachments[k].samples == attachments[k].sampleCount
           && |attachments[k].views| >= 1
           && framebuffers[0].1[k] == attachments[k].views[0].handle
    }

    /**
     * The three hooks in the order the base class runs them (the base class
     * itself is not part of this model): attachments, pass, framebuffer.
     */
    method Build(colorFormatSupportsStorage: bool) returns (ghost info: RenderPassInfo)
      requires colorFormatSupportsStorage
      requires framebuffers == []
      modifies this, device
      ensures Coherent(info)
      ensures info == EarthRenderPassInfo(COLOR_FORMAT, sampleCount, depthAttachmentFormat, sampleCount)
      ensures Call.CreateRenderPass(renderPass.value, info) in device.calls
    {
      CreateAttachments(colorFormatSupportsStorage);
      CreateRenderPass();
      info := EarthRenderPassInfo(colorTexture.format, colorTexture.sampleCount,
                                  depthImage.format, depthImage.sampleCount);
      assert device.calls[|device.calls| - 1] == Call.CreateRenderPass(renderPass.value, info);
      ghost var afterPass := device.calls;
      CreateFramebuffers();
      assert device.calls == afterPass + [device.calls[|device.calls| - 1]];
    }
  }
}
