# VulkanAndroid core, modelled in Dafny

This project models the core of an Android Vulkan renderer of the Earth.
The renderer draws a skybox, the globe and its clouds into an offscreen HDR
color image. A compute tone-mapping pass then writes each swapchain image,
and the frame is presented. Three parts of the program are modelled.

- **`Image`** (`image.dfy`, module `Images`). The GPU image wrapper:
  - its mip-level count;
  - the access masks that layout transitions choose;
  - one-time transitions, blits and copies;
  - mip-chain generation;
  - per-layer uploads through a staging buffer;
  - image views;
  - the ownership rule for swapchain images.

  A layout tracker (`Run`/`Consistent`) replays recorded barriers and checks
  each command against the layouts it declares.
- **`EarthRenderPass`** (`earth_render_pass.dfy`, module `EarthPass`). The
  offscreen pass:
  - a mip-mapped R16G16B16A16 color texture with two views and a sampler;
  - a depth/stencil image;
  - their initial transitions;
  - the render-pass declaration, with one subpass and two mirrored external
    dependencies;
  - one framebuffer.
- **`Engine`** (`engine.dfy`, module `Orchestrator`, class `Engine`). The
  frame orchestrator. It covers:
  - the `created` / `outdated` / `paused` state machine;
  - the objects it builds on `create`, rebuilds on `recreate` and releases
    on `destroy`, kept as a lifecycle log;
  - the descriptor groups of `initDescriptorSets` (`descriptors.dfy`, module
    `Descriptors`) and the pool budget they need;
  - the rendering command buffer and the per-swapchain-image compute
    buffers;
  - the queue log of `drawFrame`.

  `frame_sync.dfy` (module `FrameSync`) replays that log under
  binary-semaphore rules. A wait must find its semaphore signalled, and a
  signal must find it unsignalled.

`vk.dfy` (module `Vk`) is the small slice of Vulkan the three parts use:
- flag constants with Vulkan's bit values;
- image layouts, ranges and barriers;
- the recorded-command and driver-call datatypes;
- a `Device` that logs driver calls and hands out fresh handles;
- a `CommandBuffer` that logs recorded commands.

Driver calls are modelled as entries appended to these logs. Their results
(acquire and present results, the acquired image index, the window and
swapchain extents, the swapchain's images) are parameters.

## Model

| member | source | states |
|---|---|---|
| Images.CeilLog2 | VulkanAndroid/VulkanAndroid.NativeActivity/Image.cpp:539-543 | the result k satisfies n <= 2^k, and 2^(k-1) < n when k > 0: the ceiling of log2 that the mip count is built on |
| Images.CeilLog2AtMost | VulkanAndroid/VulkanAndroid.NativeActivity/Image.cpp:539-543 | any b with n <= 2^b bounds CeilLog2(n), so CeilLog2 is the least such exponent |
| Images.MipLevelCount | VulkanAndroid/VulkanAndroid.NativeActivity/Image.cpp:539-543 | at least one level; the largest dimension fits in 2^m and exceeds 2^(m-1) when m > 1; it equals ceil(log2 largest dimension) when that is positive and 1 when every dimension is at most 2; at most 32 for 32-bit extents |
| Images.MipLevelCountFullHd | VulkanAndroid/VulkanAndroid.NativeActivity/Image.cpp:539-543 | a 1920x1080 image has 11 levels |
| Images.MipLevelCountExamples | VulkanAndroid/VulkanAndroid.NativeActivity/Image.cpp:539-543 | 1024x1024 has 10 levels, 256x256 has 8, 1x1 has 1 |
| Images.SourceAccess | VulkanAndroid/VulkanAndroid.NativeActivity/Image.cpp:198-246 | the first switch: the mask is empty exactly when the old layout is UNDEFINED or one the switch does not name |
| Images.TransitionAccess | VulkanAndroid/VulkanAndroid.NativeActivity/Image.cpp:198-288 | the destination mask is empty exactly for the layouts the second switch does not name; the source mask is the first switch's except, in both directions, for a transition into SHADER_READ_ONLY from a defined layout with an empty first-switch mask, where it becomes HOST_WRITE or TRANSFER_WRITE |
| Images.SourceMaskTable | VulkanAndroid/VulkanAndroid.NativeActivity/Image.cpp:198-246 | the source access mask, layout by layout, for every transition where the SHADER_READ_ONLY fallback cannot apply |
| Images.DestinationMaskTable | VulkanAndroid/VulkanAndroid.NativeActivity/Image.cpp:250-288 | the destination mask, layout by layout, independent of the old layout; it is non-empty exactly for the five handled target layouts |
| Images.HostWriteFallback | VulkanAndroid/VulkanAndroid.NativeActivity/Image.cpp:276-284 | the source mask differs from the first switch exactly for a transition into SHADER_READ_ONLY from a defined layout the first switch does not name (of the modelled layouts: GENERAL, DEPTH_STENCIL_READ_ONLY and PRESENT_SRC), and then it is HOST_WRITE or TRANSFER_WRITE |
| Images.SourceMaskEmptyIff | VulkanAndroid/VulkanAndroid.NativeActivity/Image.cpp:198-288 | the source mask is empty if and only if the old layout is UNDEFINED, or is unhandled and the target is not SHADER_READ_ONLY |
| Images.MipLoopLength | VulkanAndroid/VulkanAndroid.NativeActivity/Image.cpp:417-473 | the loop over M levels records 3(M-1) commands |
| Images.MipLoopAt | VulkanAndroid/VulkanAndroid.NativeActivity/Image.cpp:417-473 | iteration i occupies positions [3(i-1), 3i): barrier, blit and barrier at the tracked extent of level i-1 |
| Images.MipLoopBlits | VulkanAndroid/VulkanAndroid.NativeActivity/Image.cpp:417-473 | the loop records exactly M-1 blits |
| Images.MipChainShape | VulkanAndroid/VulkanAndroid.NativeActivity/Image.cpp:398-485 | a chain of M levels is 3(M-1)+1 commands with M-1 blits. Blit i reads level i-1 at the tracked extent and writes level i at half that extent (at least 1). Level i-1 moves TRANSFER_DST to TRANSFER_SRC before its blit and to the final layout after it. The last barrier moves level M-1 |
| Images.MipStepLayouts | VulkanAndroid/VulkanAndroid.NativeActivity/Image.cpp:419-472 | one iteration, from levels [0, i-1) final and the rest TRANSFER_DST, is layout-consistent and moves level i-1 to the final layout |
| Images.MipLoopLayouts | VulkanAndroid/VulkanAndroid.NativeActivity/Image.cpp:417-473 | from all levels in TRANSFER_DST, the loop is layout-consistent and leaves levels [0, k-1) final and the rest TRANSFER_DST |
| Images.MipChainLayouts | VulkanAndroid/VulkanAndroid.NativeActivity/Image.cpp:398-485 | from all levels in TRANSFER_DST, every barrier and blit of the chain finds the layouts it declares, and every level ends in the caller's final layout |
| Images.MipExtents | VulkanAndroid/VulkanAndroid.NativeActivity/Image.cpp:456-472 | every blit's destination extent is at least 1; from a positive extent the tracked extent stays positive and never grows; each blit's destination extent is the next blit's source extent |
| Images.UploadLayout | VulkanAndroid/VulkanAndroid.NativeActivity/Image.cpp:316-348 | one region per layer. Region i reads bytes [i*ls, (i+1)*ls), which lie inside the ls*n staging buffer and do not overlap other regions, and writes exactly layer offset+i. The regions together cover exactly layers [offset, offset+n). The transition covers every mip of those layers |
| Images.UploadWithinImage | VulkanAndroid/VulkanAndroid.NativeActivity/Image.cpp:307-348 | with the bounds check taken over unbounded integers, the transition range and every region lie inside the image |
| Images.UploadGuardWraps | VulkanAndroid/VulkanAndroid.NativeActivity/Image.cpp:307 | the 32-bit bounds check accepts offset 0xFFFFFFFF with one layer on a one-layer image, whose region and transition then lie outside it |
| Images.CreateFlagsFor | VulkanAndroid/VulkanAndroid.NativeActivity/Image.cpp:568-579 | CUBE_COMPATIBLE is set if and only if the caller set it or a 2D image is a cube map; every other flag is the caller's |
| Images.FullViewType | VulkanAndroid/VulkanAndroid.NativeActivity/Image.cpp:112-139 | the view type, case by case in both directions: 1D or 1D array for a 1D image by layer count; cube for a 2D cube map with at least 6 layers; an abort for fewer; 2D array or 2D otherwise |
| Images.FullViewMatchesImage | VulkanAndroid/VulkanAndroid.NativeActivity/Image.cpp:112-139 | the full view is 1D exactly when the created image is 1D, and a cube view only ever goes on a cube-compatible image |
| Images.TeardownOwnership | VulkanAndroid/VulkanAndroid.NativeActivity/Image.cpp:42-53 | every view is destroyed; a swapchain image never destroys the image or frees memory, and an owned image does both; all views go before the image and its memory |
| Images.Image.constructor | VulkanAndroid/VulkanAndroid.NativeActivity/Image.cpp:5-26 | creates the image with the chosen type and flags, allocates and binds fresh memory, and records every parameter with no views |
| Images.Image.FromSwapChain | VulkanAndroid/VulkanAndroid.NativeActivity/Image.cpp:28-40 | wraps a presentable image it does not own: one level, one layer, one sample, no memory |
| Images.Image.Destroy | VulkanAndroid/VulkanAndroid.NativeActivity/Image.cpp:42-53 | issues exactly the teardown of `TeardownOwnership` |
| Images.Image.PushView | VulkanAndroid/VulkanAndroid.NativeActivity/Image.cpp:92-110 | appends one view with a fresh handle over an in-bounds range; earlier views are unchanged |
| Images.Image.FullRange | VulkanAndroid/VulkanAndroid.NativeActivity/Image.cpp:112-139 | every level and every layer, which lies within the image |
| Images.Image.PushFullView | VulkanAndroid/VulkanAndroid.NativeActivity/Image.cpp:112-139 | appends a full-range view of the type `FullViewType` chooses, which the image invariant guarantees exists |
| Images.Image.MemoryBarrier | VulkanAndroid/VulkanAndroid.NativeActivity/Image.cpp:151-181 | records exactly one barrier on this image with the given masks, stages and range |
| Images.Image.TransitLayout | VulkanAndroid/VulkanAndroid.NativeActivity/Image.cpp:183-301 | submits one one-time buffer holding the single barrier with the masks of the access table |
| Images.Image.BlitTo | VulkanAndroid/VulkanAndroid.NativeActivity/Image.cpp:353-381 | records one blit from this image in TRANSFER_SRC to the destination in TRANSFER_DST |
| Images.Image.BlitToAndSubmit | VulkanAndroid/VulkanAndroid.NativeActivity/Image.cpp:383-396 | the same blit alone in a one-time buffer |
| Images.Image.CopyTo | VulkanAndroid/VulkanAndroid.NativeActivity/Image.cpp:501-524 | records one copy from this image in TRANSFER_SRC to the destination in TRANSFER_DST |
| Images.Image.CopyToAndSubmit | VulkanAndroid/VulkanAndroid.NativeActivity/Image.cpp:526-537 | the same copy alone in a one-time buffer |
| Images.Image.GenerateMipmaps | VulkanAndroid/VulkanAndroid.NativeActivity/Image.cpp:398-485 | records exactly `MipChain` of this image, with the extents taken as signed 32-bit values, so the chain properties above apply to what it records |
| Images.Image.GenerateMipmapsAndSubmit | VulkanAndroid/VulkanAndroid.NativeActivity/Image.cpp:487-499 | the whole chain in one one-time buffer |
| Images.Image.StageLayers | VulkanAndroid/VulkanAndroid.NativeActivity/Image.cpp:319-322 | layer i of the data is written to the staging buffer at offset i * layerSize, in layer order |
| Images.Image.RegionsFor | VulkanAndroid/VulkanAndroid.NativeActivity/Image.cpp:324-340 | returns the region list of `UploadLayout` |
| Images.Image.UpdateData | VulkanAndroid/VulkanAndroid.NativeActivity/Image.cpp:303-351 | a layer-size-times-count staging buffer, the layer writes, an UNDEFINED to TRANSFER_DST transition of every mip of the updated layers, then the copy; with the corrected bounds check |
| EarthPass.ColorRangesPartitionMips | VulkanAndroid/VulkanAndroid.NativeActivity/MainRenderPass.cpp:54-97 | both views and both transitions lie within the color texture. The two transitions partition its mip chain: level 0 is the render target and every other level is sampled (none with one level) |
| EarthPass.ColorTransitionLayouts | VulkanAndroid/VulkanAndroid.NativeActivity/MainRenderPass.cpp:74-97 | from UNDEFINED the two transitions are layout-consistent and leave level 0 COLOR_ATTACHMENT and levels 1.. SHADER_READ_ONLY |
| EarthPass.DepthRangesAgree | VulkanAndroid/VulkanAndroid.NativeActivity/MainRenderPass.cpp:101-123 | the depth image's transition range lies inside it, and its full view is 2D (1D for a zero-height extent) |
| EarthPass.EarthRenderPassInfo | VulkanAndroid/VulkanAndroid.NativeActivity/MainRenderPass.cpp:128-231 | two attachments carrying the images' formats and sample counts; one subpass whose color reference is attachment 0 in COLOR_ATTACHMENT_OPTIMAL and whose depth reference is attachment 1 in DEPTH_STENCIL_ATTACHMENT_OPTIMAL, each agreeing with its description; the color result stored and depth cleared and discarded; an input dependency from external BOTTOM_OF_PIPE / MEMORY_READ to subpass 0 COLOR_ATTACHMENT_OUTPUT / COLOR_ATTACHMENT_READ and WRITE, an output dependency that mirrors it, both BY_REGION |
| EarthPass.ColorAttachmentCount | VulkanAndroid/VulkanAndroid.NativeActivity/MainRenderPass.cpp:9-12 | the number of color attachments the declared subpass has, for any formats and sample counts |
| EarthPass.ClearValues | VulkanAndroid/VulkanAndroid.NativeActivity/MainRenderPass.cpp:14-23 | one more entry than there are color attachments, a color clear exactly at the color positions and the depth/stencil clear after them |
| EarthPass.ClearValuesMatchPass | VulkanAndroid/VulkanAndroid.NativeActivity/MainRenderPass.cpp:9-23 | one clear value per declared attachment: the color clear exactly at the color attachments and the depth clear at the depth attachment. The color-attachment count is the subpass's |
| EarthPass.EarthRenderPass.constructor | VulkanAndroid/VulkanAndroid.NativeActivity/MainRenderPass.cpp:3-7 | records the device, extent and sample count; it has no attachments, pass or framebuffer yet |
| EarthPass.EarthRenderPass.CreateAttachments | VulkanAndroid/VulkanAndroid.NativeActivity/MainRenderPass.cpp:30-126 | fresh color and depth images with exactly their declared parameters and views, a sampler, the initial transitions in order, and the attachment list color then depth |
| EarthPass.EarthRenderPass.NewColorTexture | VulkanAndroid/VulkanAndroid.NativeActivity/MainRenderPass.cpp:34-97 | the color texture: the pass extent, a full mip chain, one layer, a view of mip 0 and a view of the last mip, then its two transitions |
| EarthPass.EarthRenderPass.NewDepthImage | VulkanAndroid/VulkanAndroid.NativeActivity/MainRenderPass.cpp:101-123 | the depth image: one level and one layer, a full depth/stencil view, then its transition |
| EarthPass.EarthRenderPass.CreateRenderPass | VulkanAndroid/VulkanAndroid.NativeActivity/MainRenderPass.cpp:128-231 | creates one render pass declared by `EarthRenderPassInfo` from the attachments' formats and sample counts |
| EarthPass.EarthRenderPass.CreateFramebuffers | VulkanAndroid/VulkanAndroid.NativeActivity/MainRenderPass.cpp:233-236 | appends one framebuffer binding view 0 of the color texture and of the depth image |
| EarthPass.EarthRenderPass.Build | VulkanAndroid/VulkanAndroid.NativeActivity/MainRenderPass.cpp:30-236 | after attachments, pass and framebuffer, the attachments, the declared descriptions and the framebuffer's views agree position by position |
| Descriptors.EarthTextures | VulkanAndroid/VulkanAndroid.NativeActivity/Engine.cpp:244-249 | the four Earth textures in texture order |
| Descriptors.ToneDstSets | VulkanAndroid/VulkanAndroid.NativeActivity/Engine.cpp:295-303 | one tone-destination set per swapchain image, set i holding image i |
| Descriptors.InitialDescriptorsShape | VulkanAndroid/VulkanAndroid.NativeActivity/Engine.cpp:231-304 | every pushed set fits its group's layout; the groups hold 1, 1, 2, 1 and n sets; clouds come before skybox; tone-destination set i is swapchain image i |
| Descriptors.ToneDstDemand | VulkanAndroid/VulkanAndroid.NativeActivity/Engine.cpp:295-303 | the tone-destination sets use n storage images and nothing else |
| Descriptors.InitialDemand | VulkanAndroid/VulkanAndroid.NativeActivity/Engine.cpp:231-304 | the start-up sets use TEXTURE_COUNT+2 samplers, 1+n storage images, five uniform buffers (camera, lighting, Earth, clouds, skybox) and GROUP_COUNT+n sets |
| Descriptors.PoolBudgetForFits | VulkanAndroid/VulkanAndroid.NativeActivity/Engine.cpp:34-41 | the corrected pool budget holds every start-up set and descriptor |
| Descriptors.DeclaredBudget | VulkanAndroid/VulkanAndroid.NativeActivity/Engine.cpp:34-41 | the pool sizes the orchestrator declares from the scene's two counts; `DeclaredBudgetFits` states when they hold the start-up sets |
| Descriptors.DeclaredBudgetFits | VulkanAndroid/VulkanAndroid.NativeActivity/Engine.cpp:34-41 | the pool `DeclaredBudget` declares holds the start-up sets if and only if the scene's TEXTURE_COUNT exceeds the Earth's four textures and its BUFFER_COUNT is at least five |
| Descriptors.DeclaredBudgetShortfall | VulkanAndroid/VulkanAndroid.NativeActivity/Engine.cpp:34-41 | with the counts Scene.h declares (TEXTURE_COUNT 4, BUFFER_COUNT 2), the declared pool matches the storage images exactly and has one spare set, but is short one sampler and three uniform buffers for every image count, so the start-up sets do not fit |
| FrameSync.ReplayWaitsFollowSignals | VulkanAndroid/VulkanAndroid.NativeActivity/Engine.cpp:117-195 | in a replayable queue log every wait is on a semaphore pending at the start or signalled by an earlier operation |
| FrameSync.FrameWiring | VulkanAndroid/VulkanAndroid.NativeActivity/Engine.cpp:125-194 | rendering waits on nothing and signals renderingFinished. Compute waits on renderingFinished and imageAvailable at the compute stage, runs the acquired image's buffer and signals computingFinished. Present waits only on computingFinished. Each semaphore has exactly one signaller in the frame |
| FrameSync.FrameBalanced | VulkanAndroid/VulkanAndroid.NativeActivity/Engine.cpp:125-194 | one frame is a legal binary-semaphore protocol that leaves nothing pending |
| FrameSync.FramesBalanced | VulkanAndroid/VulkanAndroid.NativeActivity/Engine.cpp:117-195 | any run of frames, whatever images they acquire, is legal and leaves nothing pending |
| Orchestrator.CreationRespectsDependencies | VulkanAndroid/VulkanAndroid.NativeActivity/Engine.cpp:22-56 | create builds every object after everything it depends on, each once |
| Orchestrator.TeardownShape | VulkanAndroid/VulkanAndroid.NativeActivity/Engine.cpp:197-229 | destroy first waits for the device, then only releases, each object once |
| Orchestrator.TeardownRespectsDependencies | VulkanAndroid/VulkanAndroid.NativeActivity/Engine.cpp:197-229 | destroy releases every object before everything it depends on |
| Orchestrator.TeardownReleasesWhatCreationBuilt | VulkanAndroid/VulkanAndroid.NativeActivity/Engine.cpp:197-229 | an object is released by destroy if and only if create built it |
| Orchestrator.TeardownNotReversed | VulkanAndroid/VulkanAndroid.NativeActivity/Engine.cpp:197-229 | the render pass is released before the pool although built first; neither depends on the other |
| Orchestrator.RecreateReleasesSurfaceUnderDependents | VulkanAndroid/VulkanAndroid.NativeActivity/Engine.cpp:64-72 | recreate releases the surface and nothing else, while the device and swapchain that depend on it stay alive; the new surface is built before the swapchain is rebuilt |
| Orchestrator.RecreateRebuildsPassUnderDescriptors | VulkanAndroid/VulkanAndroid.NativeActivity/Engine.cpp:64-85 | recreate rebuilds the main render pass, on which the descriptor sets depend, but neither builds nor rebuilds the descriptor sets; after the pass only the pipelines are rebuilt |
| Orchestrator.ComputeBuffers | VulkanAndroid/VulkanAndroid.NativeActivity/Engine.cpp:505-618 | one compute recording per swapchain image, in image order, all from one pool |
| Orchestrator.PipelineLayoutFilled | VulkanAndroid/VulkanAndroid.NativeActivity/Engine.cpp:306-380 | each pipeline's bind pushes one existing set per layout slot, each from that slot's group |
| Orchestrator.PipelineBinding | VulkanAndroid/VulkanAndroid.NativeActivity/Engine.cpp:231-304 | against the start-up groups, the resources each pipeline's bind points at, type by type, are exactly the ones its shaders use (for the tone pipeline, the main color image and the swapchain image of the buffer) |
| Orchestrator.ObjectBinding | VulkanAndroid/VulkanAndroid.NativeActivity/Engine.cpp:443-495 | a graphics bind shows the object's textures, then camera, lighting and the object's transformation |
| Orchestrator.ToneBinding | VulkanAndroid/VulkanAndroid.NativeActivity/Engine.cpp:540-553 | a tone bind shows the main color image, then swapchain image i, and nothing of other types |
| Orchestrator.ToneSetResources | VulkanAndroid/VulkanAndroid.NativeActivity/Engine.cpp:286-303 | the tone source set holds the main color image and destination set i holds swapchain image i |
| Orchestrator.ObjectSetResources | VulkanAndroid/VulkanAndroid.NativeActivity/Engine.cpp:244-284 | an object's set holds its textures and then its transformation buffer |
| Orchestrator.RenderRecordingShape | VulkanAndroid/VulkanAndroid.NativeActivity/Engine.cpp:397-503 | one render pass over framebuffer 0 with two clear values; every set bind follows the bind of its graphics pipeline; the cube is drawn exactly after the skybox's sets and the spheres after the Earth's and clouds' |
| Orchestrator.ComputeRecordingShape | VulkanAndroid/VulkanAndroid.NativeActivity/Engine.cpp:527-615 | the tone pipeline, then its sets for image i. From any layout the image goes to GENERAL, the layout its storage descriptor declares, before the dispatch and to PRESENT_SRC after it, touching only color mip 0 layer 0. The dispatch covers the extent in 8x8 blocks, leaving fewer than 8 columns or rows |
| Orchestrator.FrameResult | VulkanAndroid/VulkanAndroid.NativeActivity/Engine.cpp:117-195 | presented if and only if the gate is open, the acquire succeeds or is suboptimal and present succeeds. Not presented if and only if the gate is closed, the acquire is out of date, or present is out of date or suboptimal. Aborted if and only if any other acquire or present error occurs |
| Orchestrator.FrameResultTable | VulkanAndroid/VulkanAndroid.NativeActivity/Engine.cpp:117-195 | nothing is queued unless the gate is open and the acquire proceeds, and a presented frame has queued all four operations |
| Orchestrator.Engine.constructor | VulkanAndroid/VulkanAndroid.NativeActivity/Engine.cpp:8-13 | not created, not outdated, with nothing logged |
| Orchestrator.Engine.Create | VulkanAndroid/VulkanAndroid.NativeActivity/Engine.cpp:22-56 | a no-op once created; otherwise a new device, the creation order, the start-up groups, the pool budget the code declares and both recordings on the new device; the invariant is kept |
| Orchestrator.Engine.Recreate | VulkanAndroid/VulkanAndroid.NativeActivity/Engine.cpp:58-89 | false when not created; a no-op unless outdated; otherwise the rebuild order, the new extents, the rendering buffer re-recorded (its old one freed into the same pool) and outdated cleared; compute buffers, groups and images kept |
| Orchestrator.Engine.Outdate | VulkanAndroid/VulkanAndroid.NativeActivity/Engine.cpp:91-94 | sets outdated and changes nothing else |
| Orchestrator.Engine.Pause | VulkanAndroid/VulkanAndroid.NativeActivity/Engine.cpp:96-99 | sets paused and changes nothing else |
| Orchestrator.Engine.Unpause | VulkanAndroid/VulkanAndroid.NativeActivity/Engine.cpp:101-105 | on a created engine, clears paused and tells the scene to skip the paused time; nothing else changes |
| Orchestrator.Engine.OnPause | VulkanAndroid/VulkanAndroid.NativeActivity/Engine.cpp:107-110 | returns paused |
| Orchestrator.Engine.DrawFrame | VulkanAndroid/VulkanAndroid.NativeActivity/Engine.cpp:117-195 | the result of `FrameResult`; the scene is updated exactly when the gate is open; the frame's four queue operations are appended exactly when the acquire proceeds; the compute submit runs the acquired image's buffer; the semaphore invariant is kept |
| Orchestrator.Engine.Destroy | VulkanAndroid/VulkanAndroid.NativeActivity/Engine.cpp:197-229 | a no-op when not created; otherwise the teardown order, created cleared and the command-buffer handles dropped; the invariant is kept |
| Orchestrator.Engine.DestroyAsWritten | VulkanAndroid/VulkanAndroid.NativeActivity/Engine.cpp:197-229 | the same teardown, keeping the command-buffer handles of the destroyed device |
| Orchestrator.Engine.InitDescriptorSets | VulkanAndroid/VulkanAndroid.NativeActivity/Engine.cpp:231-304 | builds exactly the start-up groups, one destination set per swapchain image |
| Orchestrator.Engine.InitRenderingCommands | VulkanAndroid/VulkanAndroid.NativeActivity/Engine.cpp:397-503 | frees the buffer still held into the current pool, then holds the rendering recording over the pass extent from the current pool |
| Orchestrator.Engine.InitComputingCommands | VulkanAndroid/VulkanAndroid.NativeActivity/Engine.cpp:505-618 | frees the buffers still held into the current pool, then holds one compute recording per swapchain image over the swapchain extent |
| Orchestrator.StaleFreeAsWritten | VulkanAndroid/VulkanAndroid.NativeActivity/Engine.cpp:401-404 | a buffer kept from device g and freed when create makes device g+1 goes into the wrong pool, for the rendering and for the compute buffers |

## Left out

- `Vk.Layout` holds only the ten image layouts the code names. The source's `default:` branches (Image.cpp:243, 285) also cover every other VkImageLayout, such as DEPTH_READ_ONLY_STENCIL_ATTACHMENT_OPTIMAL or SHARED_PRESENT_KHR. For those, the SHADER_READ_ONLY fallback of `HostWriteFallback` fires as well.
- Driver failures: every `CALL_VK` creation call is assumed to succeed. A `LOGA` abort becomes a `requires` on the method, or `None` in a decision function (`FullViewType`).
- Pixel data, shaders, pipelines and their creation (`initPipelines` beyond the set layouts each pipeline uses), the scene's draws, uniform updates and `handleMotion`: these are GPU work or floating point.
- The gallery and the tone render pass: they are not part of this model.
- `math::ceilLog2`: it is not part of this model. `CeilLog2` is defined by its property, the least k with n <= 2^k.
- The descriptor pool: it is not enforced at allocation. `Descriptors.Fits` states what a pool must hold; `DescriptorPool` and `DescriptorSets` are not part of this model.
- `DESCRIPTOR_TYPE_COUNT` and the `DESCRIPTOR_TYPE_*` enumeration are not part of this model. Five groups are assumed, in the order SCENE, EARTH, CLOUDS_AND_SKYBOX, TONE_SRC, TONE_DST, because these are the five indices `initDescriptorSets` fills.
- The swapchain: `SwapChain::recreate` is not part of this model. Its images are assumed to keep their handles and count across `recreate`, and the window and swapchain extents are parameters.
- Queue timing: the queue log records order, not timing, and the GPU's execution of the submits is not modelled.
- Orchestrator.Engine.constructor: `paused` has no initialiser in the source, so its first value is a parameter. `renderingCommands` is assumed to start empty.
- Orchestrator.Engine.Create: the objects' construction is one block of lifecycle events, not a model of each object's constructor.
- Orchestrator.Engine.Recreate: likewise appends its rebuild as one block. The compute buffers are not re-recorded, as in the source, so after a resize they dispatch over the old extent. The model tracks this as `computeExtent`.
- Orchestrator.Engine.Destroy: this is the corrected version, which also drops the handles of the command buffers.
- Orchestrator.Engine.Create: it installs the pool budget the code declares, `DeclaredBudget` with Scene.h's counts. Since the pool is not enforced, the shortfall in Findings shows up only in `DeclaredBudgetShortfall`; the corrected `PoolBudgetFor` is stated but not installed.
- `Scene::TEXTURE_COUNT` and `Scene::BUFFER_COUNT` are taken from Scene.h:8-9 (4, the Earth's texture count, and 2). That header is out of date with the code: `initDescriptorSets` calls lighting, clouds and skybox getters it does not declare. So the program may be built with other values. `DeclaredBudgetFits` states the outcome for any values.
- Orchestrator.Engine.Unpause: requires `created`. The source calls into the scene unconditionally, but the scene is unset before the first `create` and deleted by `destroy` (Engine.cpp:8, 219), so any other call is undefined behaviour, which is not modelled.
- Orchestrator.Engine.Recreate: the kept tone-source set (Engine.cpp:288-292) and the kept compute buffers that bind it (Engine.cpp:540-553) still name the color image from before the render pass was rebuilt. `MainColorImage` has no identity here, so whether `RenderPass::recreate` replaces that image is not captured; `RenderPass::recreate` is not part of this model. `RecreateRebuildsPassUnderDescriptors` states that the sets are not rebuilt.
- Orchestrator.Engine.Recreate: deletes the surface while the device and the swapchain built on it are alive, as the source does (`RecreateReleasesSurfaceUnderDependents`). Whether the swapchain layer tolerates that is not part of this model, and no reordered recreate is modelled.
- Orchestrator.Engine.DrawFrame: the compute submit goes to the graphics queue, as the source does. A present that returns SUBOPTIMAL makes the frame return false.
- Images.Image.PushView: requires the range to lie within the image. The source's `pushView` checks nothing and leaves an out-of-range view to Vulkan's valid-usage rules.
- Images.Image.constructor: requires at least one level and one layer. The source leaves this to Vulkan's valid-usage rules.
- Images.Image.UpdateData: requires fewer than 2^32 layers of data. The source truncates `data.size()` to 32 bits (Image.cpp:305), and that truncation is not modelled. It also uses the unbounded bounds check. The 32-bit one is `UploadGuardAsWritten` (see Findings). Each layer's pixels are an opaque value, and the staging buffer is not modelled beyond its size and writes.
- Images.LayerSize: the layer size is the 32-bit product of width, height and pixel size, wrapping as the source computes it. Offsets and the staging size are 64-bit values, which are assumed not to wrap.
- Images.Image.GenerateMipmaps: the extent is read as a signed 32-bit value, as the source's `int32_t` does. Dafny's `/` is Euclidean, which agrees with C's division here because `/` only runs on values above 1.
- Images.MipLevelCountExamples: takes 256x256 to 8 levels, as the code computes. That is ceil(log2 256), not the usual floor(log2)+1 = 9.
- Image samplers (`pushSampler`) are a single logged creation call. The sampler's parameters beyond its filter are not modelled.
- Orchestrator.Engine.InitComputingCommands: the dispatch covers the extent in 8x8 blocks, rounding down, so up to 7 columns and rows are left unwritten. `ComputeRecordingShape` states this as it is.
- The repository's header for the orchestrator declares a constructor that takes a window. The code's constructor takes none, and the model follows the code.

## Findings

| source | as written | input that shows it | evidently intended | confidence | as-written member | corrected member |
|---|---|---|---|---|---|---|
| VulkanAndroid/VulkanAndroid.NativeActivity/Image.cpp:307 | the bounds check `layersOffset + updatedLayers <= arrayLayers` adds two 32-bit values, so the sum can wrap | layersOffset = 0xFFFFFFFF, one layer, a one-layer image: the sum wraps to 0, so the check passes and the copy writes layer 0xFFFFFFFF | reject uploads whose layers do not lie inside the image | not executed; high for the arithmetic, low for any caller passing such an offset | Images.UploadGuardWraps | Images.UploadWithinImage |
| VulkanAndroid/VulkanAndroid.NativeActivity/Engine.cpp:34-41 | the pool is declared with TEXTURE_COUNT+1 combined image samplers and BUFFER_COUNT+0 uniform buffers | any swapchain image count, with Scene.h's TEXTURE_COUNT 4 and BUFFER_COUNT 2: the start-up sets use TEXTURE_COUNT+2 samplers (Earth, clouds, skybox) and five uniform buffers (two for the scene, one per object) | a pool that holds every set pushed at start-up | not executed; low, as Scene.h is out of date with the code and the budget fits whenever the live TEXTURE_COUNT exceeds 4 and BUFFER_COUNT is at least 5 (`DeclaredBudgetFits`); some drivers also tolerate an oversubscribed pool | Descriptors.DeclaredBudgetShortfall | Descriptors.PoolBudgetForFits |
| VulkanAndroid/VulkanAndroid.NativeActivity/Engine.cpp:197-229 | destroy keeps the command-buffer handles of the destroyed device, and the next create's `initRenderingCommands` / `initComputingCommands` (lines 401-404, 510-513) free them into the new device's pool | create, destroy, create | drop the handles with the device, or free them before the pool is destroyed | not executed; medium | Orchestrator.StaleFreeAsWritten | Orchestrator.Engine.Destroy |
