# Mesh-shading renderer: a Dafny model of its bookkeeping

The renderer loads glTF 2.0 scenes into growable scene pools and uploads them to the GPU. It splits the geometry into meshlets and draws each frame with task and mesh shaders over two frame slots. Apart from the driver calls, the code keeps a good deal of integer and index bookkeeping. This project models that bookkeeping and proves what it guarantees. Vertex payloads, matrices and GPU handles are kept abstract.

The model has one module per concern:

- **Common** (`common.dfy`): the C++ unsigned integer types, wrap-around on narrowing, and little-endian byte encoding.
- **Input** (`input_handler.dfy`): the input handler's saturating delay counter.
- **MemoryTypes** (`memory_types.dfy`): the memory-type search of `Buffer.cpp`.
- **DeviceSetup** (`device_setup.dfy`): the required-extension check and the queue-family choice of the device constructor.
- **Swapchains** (`swapchain.dfy`): the swapchain wrapper.
  - FIFO and sRGB checks, and extent choice.
  - `Cleanup`, `Recreate` and `CreateImageViews`.
  - Every call made on the logical device is kept as a log.
- **Images** (`images.dfy`): image creation parameters.
  - The mip-level count, as an integer bit length.
  - The depth-format probe.
  - The debug checkerboard.
- **Scene** (`scene.dfy`): the records handed to the shaders and the push-constant counters.
- **Commands** (`commands.dfy`): command recording.
  - A command buffer is the log of what was recorded into it.
  - The dynamic state a command sees is the replay of the log before it, where the last write wins.
  - The layout changes an image goes through are read off the barriers in the log.
- **FrameLoop** (`frame_loop.dfy`): the frame-slot state machine.
  - Two slots, each with a command buffer, two semaphores and a fence.
  - The driver is an oracle whose answers are parameters: the acquire result, whether presentation threw, and the swapchain it hands back on recreation.
- **Meshlets** (`meshlets.dfy`): the meshlet arrays `OptimizeMesh` allocates and trims around the meshlet builder. The builder's output is an input.
- **Uploads** (`uploads.dfy`): buffer and image creation and the staged uploads.
  - The allocator is a log of requests.
  - A staging buffer's contents are a byte sequence.
- **Gltf** (`gltf.dfy`): the parts of a parsed glTF asset the loader reads. It also holds the functions that say what loading them must produce:
  - the point lights;
  - the material index groups and IDs;
  - the vertex and index pools and the mesh views.
- **ScenePools** (`scene_pools.dfy`): the renderer's scene arrays as a class. `LoadGLTF`, `ParseGLTFImage`, `CreateDebugTextures` and `UploadAll_Init` update them in place. Each is proved against the functions in Gltf.

## Model

| member | source | states |
|---|---|---|
| Common.WrapSize | Renderer.cpp:558 | An unsigned subtraction in size_t stays below 2^64 and is exact when its value is in range. |
| Common.LeBytes32RoundTrip | Renderer.cpp:647-648 | A uint32_t read back from the four bytes memcpy writes for it is the value written. |
| Common.LeBytes32sAt | Renderer.cpp:647-648 | Element k of a uint32_t array copied to bytes reads back as the k-th value. |
| Common.LeDecode32s | Renderer.cpp:647-648 | A byte array of whole elements decodes to a quarter as many values, element k being the little-endian value at k. |
| Common.LeDecodeEncode32s | Renderer.cpp:647-648 | Decoding the bytes of an index array gives back the index array. |
| Input.Remaining | InputHandler.cpp:6-9 | The delay after k ticks from n is at most n, is zero exactly when k >= n, and is n - k otherwise. |
| Input.TicksSaturate | InputHandler.cpp:6-15 | k applications of Tick's step after SetDelay(n) leave max(n - k, 0), and the delay is over exactly when k >= n. |
| Input.InputHandler.constructor | InputHandler.cpp:3-5 | A new handler has delay 0. |
| Input.InputHandler.Tick | InputHandler.cpp:6-9 | Tick decrements a positive delay by one and leaves 0 at 0. |
| Input.InputHandler.SetDelay | InputHandler.cpp:10-12 | SetDelay(n) sets the delay to exactly n. |
| Input.InputHandler.IsDelayOver | InputHandler.cpp:13-15 | The answer is true exactly when the delay is 0, and the handler is not changed. |
| Input.NewHandlerIsReady | InputHandler.cpp:3-15 | A freshly constructed handler reports the delay as over. |
| MemoryTypes.FindMemoryType | Buffer.cpp:27-34 | The index returned is below memoryTypeCount, has its bit set in the filter, and has flags including every requested flag. It is the smallest such index. The caller must guarantee one exists, because the function falls off its end otherwise. |
| MemoryTypes.BufferMemoryType | Buffer.cpp:17 | The Buffer constructor's memory type is allowed by the buffer's requirements, host visible and host coherent, and the first such type. |
| DeviceSetup.CheckExtensions | Device.cpp:23-36 | supported[i] holds exactly when required name i is among the available names. allSupported holds exactly when every required name is available. |
| DeviceSetup.Missing | Device.cpp:38-43 | The reported names are required names, at most as many as required. |
| DeviceSetup.MissingReport | Device.cpp:38-43 | Nothing is printed when all are supported; otherwise the names whose entry is false are printed, in list order. |
| DeviceSetup.MissingNamesUnavailable | Device.cpp:23-43 | A name is reported exactly when it is required and not available. |
| DeviceSetup.MissingEmptyIffAllSupported | Device.cpp:26-43 | The report is empty exactly when every entry of supported is true. |
| DeviceSetup.SelectGraphicsFamily | Device.cpp:79-85 | The index is the first family with the graphics bit, or 0 when there is none. |
| DeviceSetup.SelectComputeFamily | Device.cpp:86-92 | The index is the first family other than the graphics family with the compute bit, or 0 when there is none. |
| DeviceSetup.CreateDevice | Device.cpp:18-109 | The device is created with all four required extensions whatever the check found. The printed names are exactly the required ones the device lacks. The graphics and compute family indices are those SelectGraphicsFamily and SelectComputeFamily promise. Two queue create infos are built, graphics first. They name the same family exactly when family 0 is the graphics family and no other family has the compute bit. |
| Swapchains.ViewsOf | Swapchain.cpp:105-114 | There is one view per image, in image order, each with the given format. |
| Swapchains.CreateCalls | Swapchain.cpp:106-114 | There is one view-creation call per view, in order. |
| Swapchains.DestroyCalls | Swapchain.cpp:58-62 | There is one view-destruction call per view, in order. |
| Swapchains.SupportsFifo | Swapchain.cpp:15-22 | The result is true exactly when FIFO is among the present modes. |
| Swapchains.FindSrgbColorSpace | Swapchain.cpp:24-33 | sRGB is supported exactly when some surface format is R8G8B8A8Srgb. The colour space is that of the first such format. |
| Swapchains.Swapchain.constructor | Swapchain.cpp:9-52 | After construction:<br>• the render format is always R8G8B8A8Srgb;<br>• the colour space comes from the first sRGB surface format;<br>• the extent is the surface's maxImageExtent;<br>• the one creation request asks for IMAGE_COUNT images with FIFO;<br>• the views are one per image.<br>Neither missing FIFO nor missing sRGB stops construction. |
| Swapchains.Swapchain.Cleanup | Swapchain.cpp:58-62 | Every image view is destroyed, then the swapchain; no field changes. |
| Swapchains.Swapchain.Recreate | Swapchain.cpp:64-88 | The calls are wait idle, the destruction of every old view, then of the old swapchain, then the creation of the new one and its views. The extent becomes the window's pixel size, narrowed to uint32_t. The format and colour space are kept. |
| Swapchains.Swapchain.CreateImageViews | Swapchain.cpp:90-114 | imageViews is cleared and then holds exactly one view per swapchain image, in image order, and one creation call each. |
| Swapchains.RecreateOrder | Swapchain.cpp:64-88 | In the calls Recreate appends, the wait comes first. Every old view is destroyed before the new swapchain is created. Every view creation comes after it. |
| Images.BitLengthBounds | Renderer.cpp:686-688 | For n >= 1 the bit length b satisfies 2^(b-1) <= n < 2^b, so it is floor(log2(n)) + 1. |
| Images.BitLengthAtMost | Renderer.cpp:686-688 | The bit length of n is at most n. |
| Images.MipLevelCount | Renderer.cpp:686-688 | The count is 1 without mipmaps. Otherwise it is floor(log2(max(width, height))) + 1, and always at least 1. |
| Images.ImageInfo | Renderer.cpp:685-716 | The created image has the requested format, extent and usage and MipLevelCount mip levels. |
| Images.ChooseDepthFormat | Renderer.cpp:670-682 | The probe answers with the first candidate the device supports as a depth attachment, or with nothing exactly when it supports none. |
| Images.CreateDepthImage | Renderer.cpp:668-684 | As written, the depth image is D24UnormS8Uint over the render extent with one mip level, whatever the probe found. |
| Images.DepthFormatIgnoresProbe | Renderer.cpp:676-683 | On a device supporting only D32Sfloat, the probe finds D32Sfloat but the image is created with another format. |
| Images.CreateDepthImageWithProbedFormat | Renderer.cpp:668-684 | With the probe's result used, the depth format is a supported candidate. The image is missing exactly when no candidate is supported. |
| Images.CheckerTexel | Renderer.cpp:780-782 | A texel is black exactly when x + y is even and magenta exactly when it is odd. |
| Images.CheckerboardData | Renderer.cpp:779-782 | The 256 texels hold CheckerTexel(x, y) at y * 16 + x for every x and y below 16. |
| Scene.SceneInfoOf | Renderer.cpp:793-796 | Each of the four counters equals its pool size whenever that fits in uint32_t. |
| Commands.ReplayAppend | Command.cpp:49-76 | Replaying a concatenation replays the second part on the state the first part leaves. |
| Commands.ReplayNeutral | Renderer.cpp:114-131 | Commands that write no dynamic state leave the replayed state alone. |
| Commands.TransitionsAppend | Command.cpp:24-47 | The layout changes of a concatenation are those of each part, in order. |
| Commands.TransitionsNone | Command.cpp:24-47 | A log without barriers changes no layout. |
| Commands.TransitionsSingle | Command.cpp:24-47 | One command changes layouts only if it is a barrier, and then by that barrier's changes. |
| Commands.SetDynamicStatesKeepLayouts | Command.cpp:49-76 | SetDynamicStates changes no image layout. |
| Commands.CommandBuffer.constructor | Command.cpp:7-22 | A new buffer has an empty recording. |
| Commands.CommandBuffer.Record | Command.cpp:24-76 | Recording appends exactly one command. |
| Commands.CommandBuffer.RecordAll | Renderer.cpp:141 | A recording callback appends its commands in order. |
| Commands.CommandBuffer.Reset | Renderer.cpp:186-189 | A reset empties the recording. |
| Commands.Command.constructor | Command.cpp:7-22 | One pool is created on the graphics family and exactly one primary buffer is allocated from it, with an empty recording. |
| Commands.Command.SetCurrentFrame | Renderer.cpp:26 | The recording helpers now write into the given slot buffer; the pool and the allocation are kept. |
| Commands.Command.TransitionImage | Command.cpp:24-47 | Exactly one barrier is recorded. It carries:<br>• the given layouts and access masks;<br>• Ignored in both queue-family fields;<br>• AllCommands in both stage masks.<br>No dynamic state changes. |
| Commands.Command.SetDynamicStates | Command.cpp:49-76 | The eighteen state writes are appended in source order. |
| Commands.SetDepthStates | Command.cpp:50-55 | The rasterizer-discard, depth and stencil writes are appended in order. |
| Commands.SetRasterStates | Command.cpp:56-62 | The depth-bias, polygon-mode, sample and cull writes are appended in order. |
| Commands.SetAssemblyStates | Command.cpp:63-66 | The front-face, topology and primitive-restart writes are appended in order. |
| Commands.SetBlendStates | Command.cpp:67-75 | The attachment-0 blend enable, write mask and equation are appended in order. |
| Commands.Group1Effect | Command.cpp:50-55 | Replaying the first group leaves discard off, depth test off, depth write off, compare Always, stencil off and clamp off. |
| Commands.Group2Effect | Command.cpp:56-62 | Replaying the second group leaves depth bias off, Fill, one sample with mask 1, alpha-to-coverage off and cull none. |
| Commands.Group2Head | Command.cpp:56-58 | Replaying its first three writes leaves depth bias off, Fill and one sample. |
| Commands.Group2Tail | Command.cpp:59-62 | Replaying its last three writes leaves mask 1, alpha-to-coverage off and cull none. |
| Commands.Group3Effect | Command.cpp:63-66 | Replaying the third group leaves clockwise, triangle list and primitive restart off. |
| Commands.Group4Effect | Command.cpp:67-75 | Replaying the fourth group leaves blending on for attachment 0, all four channels written, and One/Zero/Add. |
| Commands.SetDynamicStatesEffect | Command.cpp:49-76 | The replay of everything SetDynamicStates records, on any state, is exactly its baseline; all other state is kept. |
| FrameLoop.FrameCalls | Renderer.cpp:25-45 | A frame that got an image does the following:<br>• it acquires, submits its one buffer with the slot's fence, then presents;<br>• the submission waits on the acquire's semaphore and signals the one the present waits on;<br>• the fence then waited and reset belongs to the slot the next frame uses;<br>• the swapchain is recreated exactly when presentation did not succeed. |
| FrameLoop.RenderingSetupEffect | Renderer.cpp:92-116 | Replaying BeginRendering's second half sets the viewport and scissor to the render extent, and the depth test to on, writing, LessOrEqual. |
| FrameLoop.ViewportScissorEffect | Renderer.cpp:92-104 | The viewport and scissor writes set both to the render extent. |
| FrameLoop.DepthEffect | Renderer.cpp:114-116 | The depth writes set test on, write on and compare LessOrEqual. |
| FrameLoop.DrawSeesDepthState | Renderer.cpp:90-116 | The draw call sees depth test on, writing, LessOrEqual, although SetDynamicStates wrote off, off, Always earlier in the same buffer. All other state is SetDynamicStates' baseline. |
| FrameLoop.TransitionChange | Command.cpp:24-47 | One TransitionImage changes the target image from the old to the new layout and touches no other image. |
| FrameLoop.FrameTransitions | Renderer.cpp:86-157 | The layout changes of a frame are those of its four barriers, in order. |
| FrameLoop.TransitionsAroundNone | Renderer.cpp:86-157 | A stretch without barriers adds no layout change. |
| FrameLoop.BeginRenderingTransitions | Renderer.cpp:86-88 | BeginRendering changes layouts only by its two barriers. |
| FrameLoop.EndFrameTransitions | Renderer.cpp:153-157 | The end of the frame changes layouts only by its two barriers. |
| FrameLoop.FrameLayoutChains | Renderer.cpp:86-156 | Within a frame, the swapchain image goes Undefined, ColorAttachmentOptimal, PresentSrc. The depth image goes Undefined, DepthStencilAttachmentOptimal, PresentSrc. Each is one chain. |
| FrameLoop.RecordRenderingSetup | Renderer.cpp:92-131 | The viewport, scissor, depth writes and beginRendering are appended to the buffer. |
| FrameLoop.Renderer.PendingSlots | Renderer.cpp:178-189 | The pending slots are those whose fence is pending. When a frame may begin, only the other slot can be pending. |
| FrameLoop.Renderer.constructor | Renderer.cpp:232-277 | A new renderer:<br>• has two slots, with currentFrame 0, requestNewSwapchain false and doVsync true;<br>• uses the Command's own buffer as slot 0's buffer;<br>• has slot 0's fence unsignalled and slot 1's signalled;<br>• owns freshly allocated fence and semaphore arrays, so Draw may update them;<br>• is ready for its first frame. |
| FrameLoop.Renderer.CreateFencesAndSemaphores | Renderer.cpp:232-242 | Each slot gets one semaphore of each kind. Slot 1's fence starts signalled, slot 0's and the immediate fence unsignalled. |
| FrameLoop.Renderer.SubmitFence | Renderer.cpp:165 | A submission makes the unsignalled fence of its slot pending. |
| FrameLoop.Renderer.WaitFence | Renderer.cpp:178-187 | A wait on a submitted fence leaves it signalled. |
| FrameLoop.Renderer.ResetFence | Renderer.cpp:178-188 | Only a finished fence is reset, and it becomes unsignalled. |
| FrameLoop.Renderer.RetireFence | Renderer.cpp:178-188 | The slot's fence is waited for and reset, and both calls are logged. |
| FrameLoop.Renderer.ResetCommandPool | Renderer.cpp:181 | A pool reset empties both slot buffers. |
| FrameLoop.Renderer.AquireImageIndex | Renderer.cpp:70-80 | A Suboptimal or OutOfDate acquire recreates the swapchain once, clears the request flag and answers false. Any other result answers true and changes nothing else. |
| FrameLoop.Renderer.ImGuiDraw | Renderer.cpp:819-831 | The request flag becomes whether the vsync checkbox was clicked, and a click toggles doVsync. |
| FrameLoop.Renderer.BeginRendering | Renderer.cpp:81-132 | The following are appended to the slot buffer:<br>• begin;<br>• the two barriers into attachment layouts;<br>• the dynamic-state baseline;<br>• viewport, scissor and depth state;<br>• beginRendering.<br>The depth image is the one at imageIndex. |
| FrameLoop.Renderer.PushConstantDraw | Renderer.cpp:790-818 | The descriptor binding and the push constants with the four pool counters are appended. |
| FrameLoop.Renderer.EndFrame | Renderer.cpp:153-157 | endRendering, the two barriers into PresentSrc, and end are appended. |
| FrameLoop.Renderer.SubmitFrame | Renderer.cpp:159-177 | The slot's buffer is submitted waiting on its image-acquired semaphore, signalling its render-finished semaphore and its fence. The present waits on that semaphore. |
| FrameLoop.Renderer.Recover | Renderer.cpp:178-185 | The recovery path:<br>• waits for and resets the current slot's fence;<br>• resets the pool, emptying both buffers;<br>• recreates the swapchain and clears the flag;<br>• keeps the slot. |
| FrameLoop.Renderer.Advance | Renderer.cpp:186-189 | The advance path moves to the other slot, waits for and resets its fence, and resets its buffer. |
| FrameLoop.Renderer.SubmitAndPresent | Renderer.cpp:151-190 | The frame is submitted and presented. On success with no request the loop advances; otherwise it recovers on the same slot. On every exit the next frame's fence is unsignalled and no request is left. |
| FrameLoop.Renderer.Draw | Renderer.cpp:25-45 | An acquire that asks for a new swapchain abandons the frame: nothing is recorded, submitted or presented, and the slot stays. Otherwise the whole frame is recorded and submitted, with the length of the renderer's meshlet array, narrowed to uint32_t, as the task-group count, and the slot advances exactly when presentation succeeded and vsync was not clicked. A presented frame leaves the swapchain's images, views and extent as they were; otherwise the swapchain is recreated with the given images at the window size narrowed to uint32_t. Either way the loop is ready for the next frame, whose acquired index can be checked against the swapchain's images. |
| FrameLoop.Renderer.RecordAndPresent | Renderer.cpp:32-44 | After an acquire succeeds, the UI runs, the frame is recorded with one task group per meshlet-array entry, and it is submitted and presented. A presented frame leaves the swapchain's images, views and extent as they were; a failed or vsync-toggled presentation recreates it with the given images at the window size. |
| FrameLoop.Renderer.RecordFrame | Renderer.cpp:33-41 | BeginRendering, the push constants, the shader binding and drawMeshTasks with the meshlet array's length narrowed to uint32_t are recorded in order. |
| FrameLoop.Renderer.SubmitImmediate | Renderer.cpp:133-150 | The immediate submission:<br>• resets the immediate fence;<br>• begins both slot buffers and lets the callback record into the current one;<br>• ends both and submits both with the immediate fence;<br>• waits for that fence. |
| FrameLoop.Renderer.RecordImmediate | Renderer.cpp:138-144 | Both slot buffers are begun and ended, with the callback's commands only in the current one. |
| Meshlets.Resize | Renderer.cpp:559-560 | std::vector::resize keeps the first n entries and zero-fills the rest. |
| Meshlets.PaddedTriangleBytes | Renderer.cpp:560 | `(3c + 3) & ~3` is a multiple of 4 and, without overflow, 3c rounded up to a multiple of 4. |
| Meshlets.PackedEndsBelowLast | Renderer.cpp:555-560 | In the builder's packed layout no meshlet's vertices or triangles end after the last meshlet's. |
| Meshlets.MeshletBuffers.constructor | Renderer.h:212-214 | The three meshlet arrays start empty. |
| Meshlets.MeshletBuffers.Allocate | Renderer.cpp:550-553 | The arrays hold maxMeshlets zero meshlets, maxMeshlets * 64 vertex slots and maxMeshlets * 124 * 3 triangle bytes. |
| Meshlets.MeshletBuffers.Trim | Renderer.cpp:558-560 | As written, the meshlet at meshletCount - 1, computed in size_t, is read. The vertex array is resized to its vertex end and the triangle array to its padded triangle end. The meshlet array is not trimmed. |
| Meshlets.MeshletBuffers.TrimBuilt | Renderer.cpp:558-560 | With an empty build handled, no meshlet leaves both arrays empty. Otherwise the arrays are trimmed as written. |
| Meshlets.MeshletBuffers.BuildMeshlets | Renderer.cpp:550-560 | Allocate, build, then trim with the corrected TrimBuilt: the meshlet array keeps maxMeshlets entries, and the other two arrays end at the last built meshlet. An empty build empties both arrays, where the source reads meshlets[SIZE_MAX] (see Findings). |
| Meshlets.EmptyBuildIndexOutOfRange | Renderer.cpp:558 | With no meshlet built, index meshletCount - 1 wraps to 2^64 - 1 and lies outside any array. |
| Meshlets.TrimKeepsMeshletVertices | Renderer.cpp:559 | The trimmed vertex array still holds every built meshlet's vertex indices. |
| Meshlets.TrimKeepsMeshletTriangles | Renderer.cpp:560 | The trimmed triangle array still holds every built meshlet's padded triangle bytes. |
| Uploads.Allocator.constructor | Renderer.cpp:605-620 | A new allocator has made no request. |
| Uploads.Allocator.CreateBuffer | Renderer.cpp:605-620 | One buffer request of the given size, usage and memory kind is appended, and its handle is returned. |
| Uploads.Allocator.DestroyBuffer | Renderer.cpp:601 | The handle is added to the destroyed buffers. |
| Uploads.Allocator.CreateImage | Renderer.cpp:685-716 | One image request is appended, and its handle is returned. |
| Uploads.SubmitImmediateAndReset | Renderer.cpp:599-600 | The recorded copies are submitted immediately, then the pool is reset; the loop stays ready. |
| Uploads.UploadData | Renderer.cpp:580-604 | sizeof(T) * count bytes are staged. Then:<br>• a device-local buffer of that size and a staging buffer are created;<br>• one copy that fits both is submitted;<br>• the staging buffer is destroyed;<br>• the target's address is returned. |
| Uploads.VertexSpanBytes | Renderer.cpp:647 | The vertex bytes of n vertices are 32 * n bytes. |
| Uploads.Known | Renderer.cpp:648 | The staged index bytes are the bytes given, one for one. |
| Uploads.MeshCopiesFit | Renderer.cpp:626-659 | With the index buffer sized for the index data, both copies read inside the staging buffer and write inside their targets. |
| Uploads.AsWrittenMeshCopiesFitIff | Renderer.cpp:626-659 | As written, the index copy fits exactly when the index data is no larger than the vertex data. |
| Uploads.AsWrittenIndexCopyOverflows | Renderer.cpp:628 | 3 vertices and 27 indices copy 108 bytes into a 96-byte index buffer. |
| Uploads.MeshStagingLayout | Renderer.cpp:644-659 | The staging buffer holds the vertex bytes followed by the index bytes. The vertex copy reads exactly the former and the index copy exactly the latter, which decode to the index array. |
| Uploads.UploadMesh | Renderer.cpp:621-666 | The corrected mesh upload:<br>• creates the vertex buffer, the index buffer sized for the indices (the source uses the vertex size, see Findings), and one staging buffer holding both;<br>• records the two fitting copies in one submission;<br>• destroys only the staging buffer. |
| Uploads.UploadImageSize | Renderer.cpp:719 | The staging size is height * width * 4 whenever that fits in uint32_t. |
| Uploads.ImageUploadLayouts | Renderer.cpp:733-750 | The uploaded image goes Undefined, TransferDstOptimal, ShaderReadOnlyOptimal, and the copy is recorded in TransferDstOptimal. |
| Uploads.CreateUploadImage | Renderer.cpp:717-756 | The texture upload:<br>• creates a host-visible upload buffer of UploadImageSize bytes and an image with transfer usage added;<br>• submits the two barriers and the copy;<br>• never destroys the upload buffer.<br>With mipmaps the extent must be non-empty, as a decoded image's always is. |
| Uploads.UploadMeshlets | Renderer.cpp:567-569 | The meshlet array, vertex indices and triangle bytes are uploaded in that order, each with its full current length. |
| Uploads.BuildAndUploadMeshlets | Renderer.cpp:550-569 | The uploaded meshlet array holds maxMeshlets meshlets, not the number built, and the vertex array ends at the last built meshlet. |
| Uploads.DrawAfterMeshletUpload | Renderer.cpp:40 | After OptimizeMesh's build and upload, a frame that got an image submits a buffer holding drawMeshTasks(maxMeshlets narrowed to uint32_t, 1, 1). A presented frame's slot buffer holds it too. The count is the bound, not the number of meshlets built. |
| Uploads.UploadRequests | Renderer.cpp:580-666 | Every guarded upload creates at least its target and its staging buffer. |
| Uploads.UploadsLoggedSnoc | Renderer.cpp:893-911 | One more upload extends a logged run by its buffers, its submission and its destroyed staging buffer. |
| Uploads.UploadsNeverEmpty | Renderer.cpp:893-911 | Uploads of non-empty data create no buffer of size 0, and every buffer they destroy is one of their own staging buffers. |
| Gltf.ReadU8s | Renderer.cpp:476-491 | Reading count uint8_t values gives each byte in order. |
| Gltf.ReadU16s | Renderer.cpp:476-482 | The memcpy into uint16_t gives the little-endian value at each position. |
| Gltf.ReadU32s | Renderer.cpp:484-491 | The memcpy into uint32_t gives the little-endian value at each position. |
| Gltf.RawIndicesAsWritten | Renderer.cpp:476-491 | As written, UNSIGNED_SHORT is read as uint16_t and everything else as uint32_t. The read is within the buffer exactly when 2 or 4 bytes per index fit. |
| Gltf.RawIndices | Renderer.cpp:476-491 | There are count index values, each of the accessor's own width. Byte indices are below 256 and short indices below 65536. |
| Gltf.AsWrittenAgreesExceptBytes | Renderer.cpp:476-491 | On UNSIGNED_SHORT and UNSIGNED_INT accessors the as-written read and RawIndices agree. |
| Gltf.AsWrittenByteIndicesMisread | Renderer.cpp:484-491 | For UNSIGNED_BYTE indices 0, 1, 2 the as-written read gives other values, or reads past the buffer. |
| Gltf.PointLightsFromPointNodes | Renderer.cpp:356-395 | The stored lights are one per point-light node, in node order, each at its node's translation. Spot and directional lights store nothing. |
| Gltf.NodeTranslation | Renderer.cpp:360-365 | The corrected translation read: a TRS node's translation, and for a matrix node the point the matrix maps the origin to. |
| Gltf.LightTranslationAsWritten | Renderer.cpp:360 | get<TRS> as written throws exactly for a matrix transform. Where it does not throw it gives NodeTranslation. |
| Gltf.MatrixLightNodeThrows | Renderer.cpp:337-360 | A point-light node whose matrix translates by (1, 2, 3) makes the read as written throw, while its translation is (1, 2, 3). |
| Gltf.TextureExtents | Renderer.cpp:307-324 | A texture uploads one image exactly when it is a JPEG or PNG. |
| Gltf.SlotExtents | Renderer.cpp:403-416 | An absent slot uploads nothing and a present one at most one image. |
| Gltf.ParsedIndexNamesTexture | Renderer.cpp:307-325 | ParseGLTFImage answers 0 for KTX2 and other types. For JPEG or PNG it answers the index of the texture it appended. |
| Gltf.MaterialExtents | Renderer.cpp:403-416 | A material uploads at most three images, in slot order. |
| Gltf.MaterialGroupOfSlots | Renderer.cpp:400-419 | The group stored is built from the three slot results in field order. |
| Gltf.MaterialGroupSlots | Renderer.cpp:403-416 | Absent slots default to diffuse 0, metallicRoughness 1 and emissive 1. A present slot's index is 0 or names a texture of that material's import. |
| Gltf.MaterialIDsConsecutive | Renderer.cpp:418 | Material j of a run receives the group count before it, start + j, narrowed to uint32_t. |
| Gltf.MaterialGroupInRange | Renderer.cpp:403-416 | With the debug textures in place, each of a material's indices names an existing texture after its own uploads. |
| Gltf.PrimitiveVertices | Renderer.cpp:448-451 | A primitive contributes one vertex per position. |
| Gltf.OffsetIndices | Renderer.cpp:480-491 | Each new index is the raw index plus the vertex-pool size before the primitive, stored as uint32_t. |
| Gltf.PrimitiveAppends | Renderer.cpp:428-496 | A primitive appends exactly its positions' count of vertices and its accessor's count of indices, and one view. Each new index is the old vertex-pool size plus the raw index, read by the corrected RawIndices. Earlier entries are unchanged. |
| Gltf.PrimitivesGrow | Renderer.cpp:427-499 | A run of primitives appends its vertex and index totals and one view per primitive, keeping earlier entries. |
| Gltf.PrimitiveViews | Renderer.cpp:493-496 | A run pushes one view per primitive. |
| Gltf.PrimitiveViewsAt | Renderer.cpp:493-496 | View j starts at start, ends at the pool size before the run plus the index counts of primitives 0..j, minus one, and has material 0 and filler 0. |
| Gltf.PrimitivesPushViews | Renderer.cpp:427-499 | Importing a run of primitives appends exactly PrimitiveViews to the mesh views. |
| Gltf.PrimitiveViewsShareStart | Renderer.cpp:426-496 | Every view a run pushes starts at start and carries material 0 and filler 0. |
| Gltf.MeshViewsShareStart | Renderer.cpp:424-499 | All views of one mesh start at the index-pool size when the mesh began, and the computed material index is never stored. |
| Gltf.PrimitiveKeepsIndicesValid | Renderer.cpp:448-492 | If every index named a vertex before, then after importing a primitive whose raw indices name its own vertices, every index still names a vertex. |
| Gltf.PrimitivesKeepIndicesValid | Renderer.cpp:427-499 | The same holds across a run of primitives. |
| Gltf.MeshesKeepIndicesValid | Renderer.cpp:424-500 | The same holds across all meshes, and the vertex pool grows by the meshes' vertex total. |
| ScenePools.LogTexture | Renderer.cpp:717-756 | One texture upload adds one buffer, one image and one texture. |
| ScenePools.LogTextures | Renderer.cpp:783-785 | Uploading n textures adds n of each. |
| ScenePools.LogTexturesAppend | Renderer.cpp:783-785 | Uploading two runs one after the other logs the same as uploading them together. |
| ScenePools.LogTexturesExtends | Renderer.cpp:783-785 | Texture uploads only append; everything logged before stays. |
| ScenePools.LogTextureAppends | Renderer.cpp:310 | One upload keeps what was logged and appends a texture naming the new image. |
| ScenePools.LoggedTexturesNameTheirImages | Renderer.cpp:310 | Each logged texture names the image created for it, with that texture's extent, and the upload buffer logged with it. |
| ScenePools.ImportMaterial | Renderer.cpp:399-420 | Importing a material stores one group and adds its uploaded textures. |
| ScenePools.CountAfter | Renderer.cpp:399-420 | The texture count only grows over the material loop. |
| ScenePools.GroupsAfter | Renderer.cpp:399-420 | The material loop stores one group per material. |
| ScenePools.ImportMaterials | Renderer.cpp:399-420 | The loop's groups and texture count are GroupsAfter and CountAfter. |
| ScenePools.ImportedGroupsStep | Renderer.cpp:399-420 | Importing one more material keeps every stored group in range of the texture count. |
| ScenePools.ImportedGroupsInRange | Renderer.cpp:399-420 | Starting from groups in range and at least the two debug textures, all stored indices stay in range. |
| ScenePools.ImportKeepsGroupsInRange | Renderer.cpp:399-420 | After the material loop every stored texture index names an existing texture. |
| ScenePools.UploadsOnlyDestroyStaging | Renderer.cpp:893-911 | The uploads create no buffer of size 0 and destroy only their own staging buffers. |
| ScenePools.UploadIfAny | Renderer.cpp:897-910 | One guarded upload happens exactly when its array is non-empty, into a buffer of the array's byte size. Earlier buffers stay. |
| ScenePools.UploadPlan | Renderer.cpp:893-911 | No planned upload is of empty data. |
| ScenePools.ReadIndices | Renderer.cpp:476-491 | The accessor is read as RawIndices, the corrected read: 16-bit, 8-bit, otherwise 32-bit. The source has no 8-bit branch (see Findings). |
| ScenePools.OffsetInto | Renderer.cpp:471-492 | The pool is resized by the raw count, and each new slot holds the raw index plus the base. |
| ScenePools.ScenePools.constructor | Renderer.h:212-224 | All scene pools start empty. |
| ScenePools.ScenePools.UploadTexture | Renderer.cpp:310 | One texture is appended with its upload logged; nothing else in the pools changes. |
| ScenePools.ScenePools.ParseGLTFImage | Renderer.cpp:295-326 | A JPEG or PNG is uploaded as a new texture and its index returned. KTX2 or another type returns 0 and appends nothing. |
| ScenePools.ScenePools.ParseSlot | Renderer.cpp:403-416 | A slot's index is ParseGLTFImage's answer when present, the default otherwise. |
| ScenePools.ScenePools.LoadMaterial | Renderer.cpp:399-420 | The slots are parsed in order base colour, metallic-roughness, emissive. The group is appended and its ID is the group count before it. |
| ScenePools.ScenePools.LoadMaterials | Renderer.cpp:397-420 | The IDs are consecutive from the group count, and the groups and textures are those of ImportMaterials. |
| ScenePools.ScenePools.LoadNextMaterial | Renderer.cpp:399-420 | One loop step imports material k and records its ID. |
| ScenePools.ScenePools.LoadLights | Renderer.cpp:356-395 | Exactly PointLightsOf is appended to the point lights, each at the corrected NodeTranslation; no other pool changes. |
| ScenePools.ScenePools.AppendVertices | Renderer.cpp:448-451 | The primitive's vertices are appended, and nothing else changes. |
| ScenePools.ScenePools.AppendIndices | Renderer.cpp:471-492 | The offset indices of the corrected read are appended, exactly count of them, and nothing else changes. |
| ScenePools.ScenePools.LoadPrimitive | Renderer.cpp:428-496 | The pools become AfterPrimitive of the old ones: vertices, offset indices of the corrected read, and the view ending at indices.size() - 1. |
| ScenePools.ScenePools.LoadMesh | Renderer.cpp:424-499 | The pools become AfterMesh, with the corrected index read: every view starts at the index-pool size when the mesh began. |
| ScenePools.ScenePools.LoadMeshes | Renderer.cpp:424-500 | The pools become AfterMeshes of the old ones, with the corrected index read. |
| ScenePools.ScenePools.LoadGLTF | Renderer.cpp:327-502 | LoadGLTF appends the lights, then the materials with their textures, then the geometry, exactly as the Gltf functions say. Those read UNSIGNED_BYTE indices one byte each, which the source does not. |
| ScenePools.ScenePools.LoadSurfaces | Renderer.cpp:397-500 | The materials and then the meshes are imported, the meshes with the corrected index read. |
| ScenePools.ScenePools.CreateDebugTextures | Renderer.cpp:775-787 | The checkerboard, black and white textures are uploaded in that order, then the group (0, 1, 1) is appended. |
| ScenePools.ScenePools.UploadAll | Renderer.cpp:893-911 | The geometry is uploaded exactly when both pools are non-empty, and each other pool exactly when it is non-empty. Each buffer has its pool's byte size, the index buffer included as in the corrected UploadMesh; no buffer of size 0 is created, and only staging buffers are destroyed. |
| ScenePools.ScenePools.UploadMeshIfAny | Renderer.cpp:895-896 | UploadMesh runs exactly when there are both indices and vertices, with the index buffer sized for the indices as in the corrected UploadMesh. |

## Left out

- The ImGui Vulkan backend's own commands (Renderer.cpp:41-42) are not modelled. RenderUi is one opaque command that changes no modelled state; the backend's pipeline binding, viewport and scissor are not tracked after it.
- The meshoptimizer library (Renderer.cpp:507-556) is foreign code. The builder's output arrays and count are inputs, with the packed layout it produces as a precondition. The vertex remap and the cache, overdraw and fetch optimisations are not modelled.
- The position-packing loop (Renderer.cpp:526-531) only feeds meshoptimizer with float data, so it is not modelled.
- Floating point is not modelled:
  - The model transform and normal transform are caller-supplied functions.
  - Light colours and ranges are stored as reals. The spot and directional angles are not stored, since those lights are not stored at all.
  - The camera (Renderer.cpp:48-68) is not part of this model.
- The glTF parser, file I/O and the parse and validation errors (Renderer.cpp:330-349) are not modelled.
  - The asset is given already parsed.
  - The references the loader follows without a check (light, texture, image and material indices, attribute lengths) are a well-formedness precondition.
- stb_image decoding is not modelled. A decoded image is given by its size, and a failed decode is not modelled.
- Spot and directional lights are not stored by the source (Renderer.cpp:373-392). The model stores nothing for them either, and no modelled operation adds to their pools.
- The computed `virtualMaterialIndex` (Renderer.cpp:457-460) is not used by the source; every view carries material 0.
- GPU-side effects are not modelled: semaphores' device-side ordering, the contents of device memory after a copy, and the shaders.
- `SpawnLights_Init` depends on a random number generator and is not modelled.
- `LoadModels_Init`, `CreateSamplers_Init`, `CreateDescSets_Init`, `CreatePipeline`, `InitImGui` and `CreateImageView` are not modelled. They are file paths and descriptor or pipeline plumbing.
- Shader.cpp, Instance.cpp, Timer.h, main.cpp and shaders/common.h are not part of this model.
- The Buffer constructor's allocation and mapping are not modelled; only its memory-type choice is.
- The acquire oracle's answers are taken as the source's branch reads them. Whether vulkan-hpp would throw on OutOfDate instead is not modelled.
- Uploads.UploadData: the device address the driver returns is represented by the buffer's handle.
- FrameLoop.Renderer.Draw: what Draw records is stated exactly only for a presented frame. For a recovered frame the buffers are emptied by the pool reset.
- Uploads.UploadMesh: the index buffer is created with the index data's size, the corrected half of the Renderer.cpp:628 finding. The overflowing copy of the source as written is shown only by Uploads.AsWrittenIndexCopyOverflows and Uploads.AsWrittenMeshCopiesFitIff.
- ScenePools.ScenePools.UploadMeshIfAny: calls the corrected Uploads.UploadMesh, so its index buffer holds INDEX_SIZE bytes per index, where the source makes it VERTEX_SIZE bytes per vertex.
- ScenePools.ScenePools.UploadAll: the index buffer's size it states is that of the corrected Uploads.UploadMesh, not the vertex size Renderer.cpp:628 passes.
- ScenePools.ReadIndices: has an UNSIGNED_BYTE branch that reads one byte per index. Renderer.cpp:476-491 reads every accessor that is not UNSIGNED_SHORT as uint32_t; that read is Gltf.RawIndicesAsWritten, and the two agree on 16-bit and 32-bit accessors (Gltf.AsWrittenAgreesExceptBytes).
- Gltf.PrimitiveAppends: its raw indices are the corrected Gltf.RawIndices, so for an UNSIGNED_BYTE accessor it states what a fixed loader appends, not what the source appends.
- ScenePools.ScenePools.AppendIndices: appends the corrected read's indices; the source reads 4 bytes per UNSIGNED_BYTE index.
- ScenePools.ScenePools.LoadPrimitive: is proved against AfterPrimitive, which uses the corrected read.
- ScenePools.ScenePools.LoadMesh: inherits the corrected read from LoadPrimitive.
- ScenePools.ScenePools.LoadMeshes: inherits the corrected read from LoadPrimitive.
- ScenePools.ScenePools.LoadSurfaces: inherits the corrected read from LoadPrimitive.
- ScenePools.ScenePools.LoadGLTF: inherits the corrected read from LoadPrimitive. The asset's well-formedness bounds an UNSIGNED_BYTE accessor by one byte per index. On such an asset the source reads four bytes per index, past the accessor.
- FrameLoop.Renderer.Draw: assumes the driver creates at most IMAGE_COUNT swapchain images. The assumption is stated once in the renderer's validity predicate and on the images a recreation hands back. setMinImageCount (Swapchain.cpp:39, 76) only sets a minimum, but the acquired index addresses the IMAGE_COUNT-entry depthImages array (Renderer.h:194) unchecked (Renderer.cpp:87, 123, 155). With three images and index 2 the source reads past that array; the model does not cover that case.
- FrameLoop.Renderer.BeginRendering: relies on the image-count assumption stated under FrameLoop.Renderer.Draw.
- FrameLoop.Renderer.EndFrame: relies on the image-count assumption stated under FrameLoop.Renderer.Draw.
- FrameLoop.Renderer.SubmitAndPresent: relies on the image-count assumption stated under FrameLoop.Renderer.Draw.
- FrameLoop.Renderer.RecordAndPresent: relies on the image-count assumption stated under FrameLoop.Renderer.Draw.
- FrameLoop.Renderer.RecordFrame: relies on the image-count assumption stated under FrameLoop.Renderer.Draw.
- FrameLoop.Renderer.AquireImageIndex: relies on the image-count assumption stated under FrameLoop.Renderer.Draw.
- FrameLoop.Renderer.Recover: relies on the image-count assumption stated under FrameLoop.Renderer.Draw.
- Commands.Command.SetCurrentFrame: Command.h and Command.cpp declare and allocate a single command buffer and no SetCurrentFrame. Renderer.cpp:26, 275-276 and 748 call SetCurrentFrame and index the buffers by slot. The model reconciles the two: the renderer owns the two slot buffers, slot 0's being the Command's own, and SetCurrentFrame retargets the Command's recording to the given slot buffer.
- Meshlets.MeshletBuffers.BuildMeshlets: trims with the corrected TrimBuilt, so an empty build leaves both arrays empty. Renderer.cpp:558 reads meshlets[SIZE_MAX] on that input (Meshlets.EmptyBuildIndexOutOfRange). Uploads.BuildAndUploadMeshlets runs the same corrected trim.
- ScenePools.ScenePools.LoadLights: reads a light node's translation with the corrected Gltf.NodeTranslation. Renderer.cpp:360 throws on a light node with a matrix transform (Gltf.MatrixLightNodeThrows).
- Gltf.PointLightsFromPointNodes: places each light at the corrected Gltf.NodeTranslation, for the same reason.
- DeviceSetup.CreateDevice: when both indices name one family, the two queue create infos name it twice, as in the source. Vulkan requires distinct families across a device's queue create infos; the driver's response to that is not modelled.
- Uploads.CreateUploadImage: requires a non-empty extent when mipmaps are made, since the mip count takes log2 of the larger side. stb_image only hands back images of positive size, so every caller meets it; a failed decode is not modelled.
- Meshlets.MeshletBuffers.Trim: the model requires the index to lie inside the meshlet array, because the source reads it unchecked. Meshlets.MeshletBuffers.TrimBuilt is the version the rest of the model uses.

## Findings

| source | as written | input that shows it | evidently intended | confidence | as-written member | corrected member |
|---|---|---|---|---|---|---|
| Renderer.cpp:628 | The index buffer is created with `vertSize`, the vertex data's size | 3 vertices (96 bytes) and 27 indices (108 bytes): the index copy writes 108 bytes into a 96-byte buffer | The index buffer is created with `indiSize` | high (not executed) | Uploads.AsWrittenIndexCopyOverflows | Uploads.MeshCopiesFit |
| Renderer.cpp:484-491 | Every accessor that is not UNSIGNED_SHORT is read as uint32_t, including UNSIGNED_BYTE | An UNSIGNED_BYTE accessor holding 0, 1, 2 is read as other values, or past its buffer | UNSIGNED_BYTE indices are read one byte each | medium (not executed) | Gltf.AsWrittenByteIndicesMisread | Gltf.RawIndices |
| Renderer.cpp:558 | `meshlets[meshletCount - 1]` is read unguarded | An empty index pool builds 0 meshlets, and the index wraps to 2^64 - 1 | With no meshlet, both arrays are emptied | medium (not executed) | Meshlets.EmptyBuildIndexOutOfRange | Meshlets.MeshletBuffers.TrimBuilt |
| Renderer.cpp:360 | Every light node's transform is read with `get<fastgltf::TRS>`, though the asset is parsed without matrix decomposition (Renderer.cpp:337) | A node with a punctual light and a `matrix` transform, such as the one translating by (1, 2, 3): std::bad_variant_access is thrown | The light is placed at the node's translation, the matrix's fourth column | medium (not executed) | Gltf.MatrixLightNodeThrows | Gltf.NodeTranslation |
| Renderer.cpp:676-683 | The probed depth format is discarded and D24UnormS8Uint is always used | A device whose only depth format is D32Sfloat | The first supported candidate is used | high (not executed) | Images.DepthFormatIgnoresProbe | Images.CreateDepthImageWithProbedFormat |
