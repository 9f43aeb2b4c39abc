/** The renderer's frame loop (Renderer.cpp Draw, AquireImageIndex, BeginRendering,
    SubmitAndPresent, SubmitImmediate, CreateFencesAndSemaphores): two frame slots,
    each with a command buffer, an image-acquired and a render-finished semaphore and
    an in-flight fence. The driver is an oracle: its acquire result, the presented
    image index, whether presentation threw, and the swapchain it hands back on
    recreation are inputs. What the loop asks of the driver is a log of calls; what
    it records into a command buffer is that buffer's log. */
module FrameLoop {
  import opened Common
  import opened Images
  import opened Swapchains
  import opened Scene
  import opened Commands
  import opened Meshlets

  /** A fence as the host sees it: not signalled and not submitted, submitted with
      work still pending, or signalled. */
  datatype FenceState = Unsignalled | Pending | Signalled

  datatype FenceId = InFlight(slot: nat) | ImmediateFence

  /** The four semaphores, named by role and slot. */
  datatype Semaphore = ImageAcquired(slot: nat) | RenderFinished(slot: nat)

  datatype AcquireResult = AcquireSuccess | NotReady | Timeout | Suboptimal | OutOfDate

  /** The acquire results AquireImageIndex answers with a swapchain recreation. */
  predicate NeedsRecreate(r: AcquireResult) {
    r == Suboptimal || r == OutOfDate
  }

  /** A depth image and its view. */
  datatype AllocatedImage = AllocatedImage(image: ImageHandle, view: ImageView)

  /** The calls the loop makes on the device and the graphics queue. */
  datatype FrameCall =
    | AcquireNextImage(semaphore: Semaphore)
    | QueueSubmit(buffers: seq<seq<Cmd>>, wait: Option<Semaphore>, signal: Option<Semaphore>, fence: FenceId)
    | QueuePresent(imageIndex: u32, renderFinished: Semaphore)
    | WaitForFence(fence: FenceId)
    | ResetFence(fence: FenceId)
    | ResetCommandPool
    | ResetCommandBuffer(slot: nat)
    | RecreateSwapchain

  /** The pool sizes the push constants carry. The number of task groups a frame
      launches is the length of the renderer's meshlet array, read from it. */
  datatype PoolSizes = PoolSizes(meshViews: nat, pointLights: nat, spotLights: nat, dirLights: nat)

  /** Depth-stencil attachment read and write. */
  const DEPTH_READ_WRITE: set<Access> := {DepthStencilAttachmentRead, DepthStencilAttachmentWrite}

  /** What BeginRendering records: begin, the two barriers into attachment layouts,
      the baseline dynamic state, then the rendering setup. */
  function BeginRenderingCmds(colorImage: ImageHandle, depth: AllocatedImage, colorView: ImageView, extent: Extent2D): seq<Cmd> {
    [BeginCmd,
     TransitionCmd(colorImage, ColorAspect, Undefined, ColorAttachmentOptimal, ACCESS_NONE, {ColorAttachmentWrite}),
     TransitionCmd(depth.image, DepthStencilAspect, Undefined, DepthStencilAttachmentOptimal, ACCESS_NONE, DEPTH_READ_WRITE)]
    + SET_DYNAMIC_STATES_CMDS
    + RenderingSetupCmds(extent, colorView, depth.view)
  }

  /** Viewport and scissor over the render extent, depth test and write on with
      LessOrEqual, and the start of rendering into the two views. */
  function RenderingSetupCmds(extent: Extent2D, colorView: ImageView, depthView: ImageView): seq<Cmd> {
    [SetState(ViewportWithCount(extent.width, extent.height)),
     SetState(ScissorWithCount(extent)),
     SetState(DepthTestEnable(true)),
     SetState(DepthWriteEnable(true)),
     SetState(DepthCompareOp(LessOrEqual)),
     BeginRenderingCmd(extent, colorView, depthView)]
  }

  /** What Draw records between BeginRendering and SubmitAndPresent; the task-group
      count is the meshlet array's size_t length narrowed to uint32_t. */
  function DrawCmds(sceneInfo: SceneInfo, taskGroups: nat): seq<Cmd> {
    [BindDescriptorSets, PushConstants(sceneInfo), BindShaders, DrawMeshTasks(Wrap32(taskGroups), 1, 1), RenderUi]
  }

  /** What SubmitAndPresent records before submitting: the end of rendering, the two
      barriers into the present layout, and the end of the buffer. */
  function EndFrameCmds(colorImage: ImageHandle, depthImage: ImageHandle): seq<Cmd> {
    [EndRenderingCmd,
     TransitionCmd(colorImage, ColorAspect, ColorAttachmentOptimal, PresentSrc, {ColorAttachmentWrite}, ACCESS_NONE),
     TransitionCmd(depthImage, DepthStencilAspect, DepthStencilAttachmentOptimal, PresentSrc, DEPTH_READ_WRITE, ACCESS_NONE),
     EndCmd]
  }

  /** A whole frame's recording. */
  function FrameCmds(colorImage: ImageHandle, depth: AllocatedImage, colorView: ImageView, extent: Extent2D,
                     sceneInfo: SceneInfo, taskGroups: nat): seq<Cmd>
  {
    BeginRenderingCmds(colorImage, depth, colorView, extent) + DrawCmds(sceneInfo, taskGroups) + EndFrameCmds(colorImage, depth.image)
  }

  /** The calls of a frame that got an image: acquire, submit, present, then either
      the advance to the other slot (wait for its fence, reset it and its buffer) or
      the recovery on the same slot (wait for the frame just submitted, reset the
      fence and the pool, recreate the swapchain). The submission waits on the
      semaphore the acquire signals, the present waits on the one the submission
      signals, and the fence that is waited and reset is the one the next frame
      submits with. */
  function FrameCalls(slot: nat, frame: seq<Cmd>, imageIndex: u32, presented: bool): (r: seq<FrameCall>)
    requires slot < 2
    ensures |r| >= 6 && r[0].AcquireNextImage? && r[1].QueueSubmit? && r[2].QueuePresent?
    ensures r[1].buffers == [frame] && r[1].fence == InFlight(slot) && r[2].imageIndex == imageIndex
    ensures r[1].wait == Some(r[0].semaphore) && r[1].signal == Some(r[2].renderFinished)
    ensures var next := if presented then 1 - slot else slot;
      r[3] == WaitForFence(InFlight(next)) && r[4] == ResetFence(InFlight(next))
    ensures RecreateSwapchain in r <==> !presented
  {
    [AcquireNextImage(ImageAcquired(slot))] + PresentCalls(slot, frame, imageIndex, presented)
  }

  /** The calls of a frame from the submission on. */
  function PresentCalls(slot: nat, frame: seq<Cmd>, imageIndex: u32, presented: bool): seq<FrameCall>
    requires slot < 2
  {
    [QueueSubmit([frame], Some(ImageAcquired(slot)), Some(RenderFinished(slot)), InFlight(slot)),
     QueuePresent(imageIndex, RenderFinished(slot))]
    + if presented then [WaitForFence(InFlight(1 - slot)), ResetFence(InFlight(1 - slot)), ResetCommandBuffer(1 - slot)]
      else [WaitForFence(InFlight(slot)), ResetFence(InFlight(slot)), ResetCommandPool, RecreateSwapchain]
  }

  /** The dynamic state the draw sees: SetDynamicStates' baseline with the viewport
      and scissor set to the render extent and depth testing overwritten. */
  function DrawState(extent: Extent2D): DynamicState {
    AfterSetDynamicStates(UNSET).(viewport := Some((extent.width, extent.height)), scissor := Some(extent),
                                  depthTest := Some(true), depthWrite := Some(true), depthCompare := Some(LessOrEqual))
  }

  /** Replaying the rendering setup sets viewport, scissor and the depth test. */
  lemma {:induction false} RenderingSetupEffect(s: DynamicState, extent: Extent2D, colorView: ImageView, depthView: ImageView)
    ensures ReplayFrom(s, RenderingSetupCmds(extent, colorView, depthView))
      == s.(viewport := Some((extent.width, extent.height)), scissor := Some(extent),
            depthTest := Some(true), depthWrite := Some(true), depthCompare := Some(LessOrEqual))
  {
    var c := RenderingSetupCmds(extent, colorView, depthView);
    assert c == c[..3] + c[3..];
    ReplayAppend(s, c[..3], c[3..]);
    ViewportScissorEffect(s, extent, colorView, depthView);
    var t := s.(viewport := Some((extent.width, extent.height)), scissor := Some(extent), depthTest := Some(true));
    DepthEffect(t, extent, colorView, depthView);
  }

  lemma ViewportScissorEffect(s: DynamicState, extent: Extent2D, colorView: ImageView, depthView: ImageView)
    ensures ReplayFrom(s, RenderingSetupCmds(extent, colorView, depthView)[..3])
      == s.(viewport := Some((extent.width, extent.height)), scissor := Some(extent), depthTest := Some(true))
  {
    var c := RenderingSetupCmds(extent, colorView, depthView)[..3];
    assert c[..0] == [];
    assert c[..1][..0] == c[..0];
    assert ReplayFrom(s, c[..1]) == Step(ReplayFrom(s, c[..0]), c[0]);
    assert c[..2][..1] == c[..1];
    assert ReplayFrom(s, c[..2]) == Step(ReplayFrom(s, c[..1]), c[1]);
    assert c[..3][..2] == c[..2];
    assert c[..3] == c;
  }

  lemma DepthEffect(s: DynamicState, extent: Extent2D, colorView: ImageView, depthView: ImageView)
    ensures ReplayFrom(s, RenderingSetupCmds(extent, colorView, depthView)[3..])
      == s.(depthWrite := Some(true), depthCompare := Some(LessOrEqual))
  {
    var c := RenderingSetupCmds(extent, colorView, depthView)[3..];
    assert c[..0] == [];
    assert c[..1][..0] == c[..0];
    assert ReplayFrom(s, c[..1]) == Step(ReplayFrom(s, c[..0]), c[0]);
    assert c[..2][..1] == c[..1];
    assert ReplayFrom(s, c[..2]) == Step(ReplayFrom(s, c[..1]), c[1]);
    assert c[..3][..2] == c[..2];
    assert c[..3] == c;
  }

  /** The draw call of a frame sees the depth test the renderer wants: on, writing,
      LessOrEqual, although SetDynamicStates wrote off, off, Always earlier in the
      same buffer; every other state is SetDynamicStates' baseline and the viewport
      and scissor cover the render extent. Whatever the buffer held before, the
      frame's begin starts from unset state. */
  lemma {:induction false} DrawSeesDepthState(s: DynamicState, colorImage: ImageHandle, depth: AllocatedImage,
                                              colorView: ImageView, extent: Extent2D, sceneInfo: SceneInfo, taskGroups: nat)
    ensures var frame := FrameCmds(colorImage, depth, colorView, extent, sceneInfo, taskGroups);
      var k := |BeginRenderingCmds(colorImage, depth, colorView, extent)| + 3;
      k < |frame| && frame[k] == DrawMeshTasks(Wrap32(taskGroups), 1, 1)
      && ReplayFrom(s, frame[..k]) == DrawState(extent)
      && ReplayFrom(s, frame[..k]).depthTest == Some(true)
      && ReplayFrom(s, frame[..k]).depthWrite == Some(true)
      && ReplayFrom(s, frame[..k]).depthCompare == Some(LessOrEqual)
      && AfterSetDynamicStates(UNSET).depthTest == Some(false)
      && AfterSetDynamicStates(UNSET).depthWrite == Some(false)
      && AfterSetDynamicStates(UNSET).depthCompare == Some(Always)
  {
    var frame := FrameCmds(colorImage, depth, colorView, extent, sceneInfo, taskGroups);
    var head := [BeginCmd,
     TransitionCmd(colorImage, ColorAspect, Undefined, ColorAttachmentOptimal, ACCESS_NONE, {ColorAttachmentWrite}),
     TransitionCmd(depth.image, DepthStencilAspect, Undefined, DepthStencilAttachmentOptimal, ACCESS_NONE, DEPTH_READ_WRITE)];
    var setup := RenderingSetupCmds(extent, colorView, depth.view);
    var binds := [BindDescriptorSets, PushConstants(sceneInfo), BindShaders];
    var k := |BeginRenderingCmds(colorImage, depth, colorView, extent)| + 3;
    assert frame[..k] == head + SET_DYNAMIC_STATES_CMDS + setup + binds;
    ReplayAppend(s, head + SET_DYNAMIC_STATES_CMDS + setup, binds);
    ReplayNeutral(ReplayFrom(s, head + SET_DYNAMIC_STATES_CMDS + setup), binds);
    ReplayAppend(s, head + SET_DYNAMIC_STATES_CMDS, setup);
    ReplayAppend(s, head, SET_DYNAMIC_STATES_CMDS);
    ReplayAppend(s, [BeginCmd], head[1..]);
    assert [BeginCmd] + head[1..] == head;
    assert [BeginCmd][..0] == [];
    ReplayNeutral(UNSET, head[1..]);
    SetDynamicStatesEffect(UNSET);
    RenderingSetupEffect(AfterSetDynamicStates(UNSET), extent, colorView, depth.view);
  }

  /** The layout change a single TransitionImage command makes to an image. */
  lemma TransitionChange(image: ImageHandle, aspect: Aspect, oldLayout: ImageLayout, newLayout: ImageLayout,
                         srcMask: set<Access>, dstMask: set<Access>, target: ImageHandle)
    ensures Transitions([TransitionCmd(image, aspect, oldLayout, newLayout, srcMask, dstMask)], target)
      == if image == target then [LayoutChange(oldLayout, newLayout)] else []
  {
    var c := TransitionCmd(image, aspect, oldLayout, newLayout, srcMask, dstMask);
    TransitionsSingle(c, target);
    assert c.barriers[..0] == [];
  }

  /** Only the four barriers of a frame change layouts. */
  lemma {:induction false} FrameTransitions(colorImage: ImageHandle, depth: AllocatedImage, colorView: ImageView,
                                            extent: Extent2D, sceneInfo: SceneInfo, taskGroups: nat, image: ImageHandle)
    ensures var t1 := TransitionCmd(colorImage, ColorAspect, Undefined, ColorAttachmentOptimal, ACCESS_NONE, {ColorAttachmentWrite});
      var t2 := TransitionCmd(depth.image, DepthStencilAspect, Undefined, DepthStencilAttachmentOptimal, ACCESS_NONE, DEPTH_READ_WRITE);
      var t3 := TransitionCmd(colorImage, ColorAspect, ColorAttachmentOptimal, PresentSrc, {ColorAttachmentWrite}, ACCESS_NONE);
      var t4 := TransitionCmd(depth.image, DepthStencilAspect, DepthStencilAttachmentOptimal, PresentSrc, DEPTH_READ_WRITE, ACCESS_NONE);
      Transitions(FrameCmds(colorImage, depth, colorView, extent, sceneInfo, taskGroups), image)
        == Transitions([t1], image) + Transitions([t2], image) + Transitions([t3], image) + Transitions([t4], image)
  {
    var draw := DrawCmds(sceneInfo, taskGroups);
    assert forall i :: 0 <= i < |draw| ==> !draw[i].PipelineBarrier?;
    TransitionsAroundNone(BeginRenderingCmds(colorImage, depth, colorView, extent), draw,
                          EndFrameCmds(colorImage, depth.image), image);
    BeginRenderingTransitions(colorImage, depth, colorView, extent, image);
    EndFrameTransitions(colorImage, depth.image, image);
    var t3 := TransitionCmd(colorImage, ColorAspect, ColorAttachmentOptimal, PresentSrc, {ColorAttachmentWrite}, ACCESS_NONE);
    var t4 := TransitionCmd(depth.image, DepthStencilAspect, DepthStencilAttachmentOptimal, PresentSrc, DEPTH_READ_WRITE, ACCESS_NONE);
    var t1 := TransitionCmd(colorImage, ColorAspect, Undefined, ColorAttachmentOptimal, ACCESS_NONE, {ColorAttachmentWrite});
    var t2 := TransitionCmd(depth.image, DepthStencilAspect, Undefined, DepthStencilAttachmentOptimal, ACCESS_NONE, DEPTH_READ_WRITE);
    AppendAssoc(Transitions([t1], image) + Transitions([t2], image), Transitions([t3], image), Transitions([t4], image));
  }

  /** A stretch without barriers between two others adds no layout change. */
  lemma TransitionsAroundNone(begin: seq<Cmd>, draw: seq<Cmd>, end: seq<Cmd>, image: ImageHandle)
    requires forall i :: 0 <= i < |draw| ==> !draw[i].PipelineBarrier?
    ensures Transitions(begin + draw + end, image) == Transitions(begin, image) + Transitions(end, image)
  {
    TransitionsAppend(begin + draw, end, image);
    TransitionsAppend(begin, draw, image);
    TransitionsNone(draw, image);
  }

  lemma {:induction false} BeginRenderingTransitions(colorImage: ImageHandle, depth: AllocatedImage, colorView: ImageView,
                                                     extent: Extent2D, image: ImageHandle)
    ensures var t1 := TransitionCmd(colorImage, ColorAspect, Undefined, ColorAttachmentOptimal, ACCESS_NONE, {ColorAttachmentWrite});
      var t2 := TransitionCmd(depth.image, DepthStencilAspect, Undefined, DepthStencilAttachmentOptimal, ACCESS_NONE, DEPTH_READ_WRITE);
      Transitions(BeginRenderingCmds(colorImage, depth, colorView, extent), image) == Transitions([t1], image) + Transitions([t2], image)
  {
    var t1 := TransitionCmd(colorImage, ColorAspect, Undefined, ColorAttachmentOptimal, ACCESS_NONE, {ColorAttachmentWrite});
    var t2 := TransitionCmd(depth.image, DepthStencilAspect, Undefined, DepthStencilAttachmentOptimal, ACCESS_NONE, DEPTH_READ_WRITE);
    var setup := RenderingSetupCmds(extent, colorView, depth.view);
    var head := [BeginCmd] + [t1] + [t2];
    assert BeginRenderingCmds(colorImage, depth, colorView, extent) == head + SET_DYNAMIC_STATES_CMDS + setup;
    TransitionsAppend(head + SET_DYNAMIC_STATES_CMDS, setup, image);
    TransitionsAppend(head, SET_DYNAMIC_STATES_CMDS, image);
    TransitionsNone(setup, image);
    SetDynamicStatesKeepLayouts(image);
    TransitionsAppend([BeginCmd] + [t1], [t2], image);
    TransitionsAppend([BeginCmd], [t1], image);
    TransitionsSingle(BeginCmd, image);
  }

  lemma {:induction false} EndFrameTransitions(colorImage: ImageHandle, depthImage: ImageHandle, image: ImageHandle)
    ensures var t3 := TransitionCmd(colorImage, ColorAspect, ColorAttachmentOptimal, PresentSrc, {ColorAttachmentWrite}, ACCESS_NONE);
      var t4 := TransitionCmd(depthImage, DepthStencilAspect, DepthStencilAttachmentOptimal, PresentSrc, DEPTH_READ_WRITE, ACCESS_NONE);
      Transitions(EndFrameCmds(colorImage, depthImage), image) == Transitions([t3], image) + Transitions([t4], image)
  {
    var t3 := TransitionCmd(colorImage, ColorAspect, ColorAttachmentOptimal, PresentSrc, {ColorAttachmentWrite}, ACCESS_NONE);
    var t4 := TransitionCmd(depthImage, DepthStencilAspect, DepthStencilAttachmentOptimal, PresentSrc, DEPTH_READ_WRITE, ACCESS_NONE);
    assert EndFrameCmds(colorImage, depthImage) == [EndRenderingCmd] + [t3] + [t4] + [EndCmd];
    TransitionsAppend([EndRenderingCmd] + [t3] + [t4], [EndCmd], image);
    TransitionsAppend([EndRenderingCmd] + [t3], [t4], image);
    TransitionsAppend([EndRenderingCmd], [t3], image);
    TransitionsSingle(EndRenderingCmd, image);
    TransitionsSingle(EndCmd, image);
  }

  /** Within a frame, the swapchain image goes Undefined, ColorAttachmentOptimal,
      PresentSrc and the depth image Undefined, DepthStencilAttachmentOptimal,
      PresentSrc: one chain each, no other barrier touches them. */
  lemma {:induction false} FrameLayoutChains(colorImage: ImageHandle, depth: AllocatedImage, colorView: ImageView,
                                             extent: Extent2D, sceneInfo: SceneInfo, taskGroups: nat)
    requires colorImage != depth.image
    ensures var frame := FrameCmds(colorImage, depth, colorView, extent, sceneInfo, taskGroups);
      Transitions(frame, colorImage)
        == [LayoutChange(Undefined, ColorAttachmentOptimal), LayoutChange(ColorAttachmentOptimal, PresentSrc)]
      && Transitions(frame, depth.image)
        == [LayoutChange(Undefined, DepthStencilAttachmentOptimal), LayoutChange(DepthStencilAttachmentOptimal, PresentSrc)]
      && Chained(Transitions(frame, colorImage)) && Chained(Transitions(frame, depth.image))
  {
    FrameTransitions(colorImage, depth, colorView, extent, sceneInfo, taskGroups, colorImage);
    FrameTransitions(colorImage, depth, colorView, extent, sceneInfo, taskGroups, depth.image);
    var images := [colorImage, depth.image];
    forall image | image in images
      ensures Transitions([TransitionCmd(colorImage, ColorAspect, Undefined, ColorAttachmentOptimal, ACCESS_NONE, {ColorAttachmentWrite})], image)
        == if image == colorImage then [LayoutChange(Undefined, ColorAttachmentOptimal)] else []
      ensures Transitions([TransitionCmd(depth.image, DepthStencilAspect, Undefined, DepthStencilAttachmentOptimal, ACCESS_NONE, DEPTH_READ_WRITE)], image)
        == if image == depth.image then [LayoutChange(Undefined, DepthStencilAttachmentOptimal)] else []
      ensures Transitions([TransitionCmd(colorImage, ColorAspect, ColorAttachmentOptimal, PresentSrc, {ColorAttachmentWrite}, ACCESS_NONE)], image)
        == if image == colorImage then [LayoutChange(ColorAttachmentOptimal, PresentSrc)] else []
      ensures Transitions([TransitionCmd(depth.image, DepthStencilAspect, DepthStencilAttachmentOptimal, PresentSrc, DEPTH_READ_WRITE, ACCESS_NONE)], image)
        == if image == depth.image then [LayoutChange(DepthStencilAttachmentOptimal, PresentSrc)] else []
    {
      TransitionChange(colorImage, ColorAspect, Undefined, ColorAttachmentOptimal, ACCESS_NONE, {ColorAttachmentWrite}, image);
      TransitionChange(depth.image, DepthStencilAspect, Undefined, DepthStencilAttachmentOptimal, ACCESS_NONE, DEPTH_READ_WRITE, image);
      TransitionChange(colorImage, ColorAspect, ColorAttachmentOptimal, PresentSrc, {ColorAttachmentWrite}, ACCESS_NONE, image);
      TransitionChange(depth.image, DepthStencilAspect, DepthStencilAttachmentOptimal, PresentSrc, DEPTH_READ_WRITE, ACCESS_NONE, image);
    }
    assert colorImage in images && depth.image in images;
  }

  /** The second half of BeginRendering: viewport and scissor over the render
      extent, the depth test on, and the start of rendering into the two views. */
  method RecordRenderingSetup(buf: CommandBuffer, extent: Extent2D, colorView: ImageView, depthView: ImageView)
    modifies buf
    ensures buf.log == old(buf.log) + RenderingSetupCmds(extent, colorView, depthView)
  {
    buf.Record(SetState(ViewportWithCount(extent.width, extent.height)));
    buf.Record(SetState(ScissorWithCount(extent)));
    buf.Record(SetState(DepthTestEnable(true)));
    buf.Record(SetState(DepthWriteEnable(true)));
    buf.Record(SetState(DepthCompareOp(LessOrEqual)));
    buf.Record(BeginRenderingCmd(extent, colorView, depthView));
  }

  class Renderer {
    var currentFrame: nat
    var requestNewSwapchain: bool
    var doVsync: bool
    const cmdBuffers: seq<CommandBuffer>
    const imageAquiredSemaphores: array<Semaphore>
    const renderFinishedSemaphores: array<Semaphore>
    const inFlightFences: array<FenceState>
    var immediateFence: FenceState
    const depthImages: seq<AllocatedImage>
    const command: Command
    const swapchain: Swapchain
    /** Every call made on the device and the queue so far. */
    var calls: seq<FrameCall>

    /** Two slots, each with its own buffer and semaphores; the recording helpers
        write into one of the slot buffers; one view per swapchain image. The source
        indexes its IMAGE_COUNT depth images by the acquired image index, so the
        driver is assumed to create no more than IMAGE_COUNT swapchain images. */
    predicate Valid()
      reads this, imageAquiredSemaphores, renderFinishedSemaphores, inFlightFences, command, swapchain
    {
      |cmdBuffers| == 2 && cmdBuffers[0] != cmdBuffers[1]
      && imageAquiredSemaphores.Length == 2 && renderFinishedSemaphores.Length == 2 && inFlightFences.Length == 2
      && (forall i :: 0 <= i < 2 ==> imageAquiredSemaphores[i] == ImageAcquired(i))
      && (forall i :: 0 <= i < 2 ==> renderFinishedSemaphores[i] == RenderFinished(i))
      && |depthImages| == IMAGE_COUNT
      && |swapchain.images| <= IMAGE_COUNT
      && currentFrame < 2
      && command.cmdBuffer in cmdBuffers
      && immediateFence != Pending
      && |swapchain.imageViews| == |swapchain.images|
    }

    /** Ready for the next Draw: the slot about to be used has an unsignalled fence
        that nothing will signal and an empty buffer, and the other slot's fence has
        been submitted or signalled, so at most that one submission is outstanding. */
    predicate FrameReady()
      reads this, imageAquiredSemaphores, renderFinishedSemaphores, inFlightFences, command, swapchain, cmdBuffers
    {
      Valid()
      && inFlightFences[currentFrame] == Unsignalled
      && inFlightFences[1 - currentFrame] != Unsignalled
      && cmdBuffers[currentFrame].log == []
    }

    /** Ready for the next Draw with both slot buffers empty: the state construction
        leaves and each immediate upload restores by resetting the pool. */
    predicate Idle()
      reads this, imageAquiredSemaphores, renderFinishedSemaphores, inFlightFences, command, swapchain, cmdBuffers
    {
      FrameReady() && cmdBuffers[0].log == [] && cmdBuffers[1].log == []
    }

    /** The slots whose submission may still be executing. */
    function PendingSlots(): (r: set<nat>)
      reads this, imageAquiredSemaphores, renderFinishedSemaphores, inFlightFences, command, swapchain, cmdBuffers
      requires Valid()
      ensures forall i: nat :: i in r <==> i < 2 && inFlightFences[i] == Pending
      ensures FrameReady() ==> r <= {1 - currentFrame}
    {
      set i | 0 <= i < 2 && inFlightFences[i] == Pending
    }

    /** The frame-slot part of InitMainObjects followed by CreateFencesAndSemaphores:
        slot 0 records into the buffer the command helper allocated, slot 1 into a
        second buffer from the same pool. */
    constructor (command: Command, swapchain: Swapchain, depthImages: seq<AllocatedImage>)
      requires |depthImages| == IMAGE_COUNT
      requires command.cmdBuffer.log == []
      requires |swapchain.imageViews| == |swapchain.images| && |swapchain.images| <= IMAGE_COUNT
      ensures FrameReady()
      ensures currentFrame == 0 && !requestNewSwapchain && doVsync
      ensures cmdBuffers[0] == command.cmdBuffer && fresh(cmdBuffers[1]) && cmdBuffers[1].log == []
      ensures inFlightFences[..] == [Unsignalled, Signalled] && immediateFence == Unsignalled
      ensures this.command == command && this.swapchain == swapchain && this.depthImages == depthImages
      ensures calls == []
      ensures fresh(inFlightFences) && fresh(imageAquiredSemaphores) && fresh(renderFinishedSemaphores)
    {
      this.command := command;
      this.swapchain := swapchain;
      this.depthImages := depthImages;
      var second := new CommandBuffer();
      cmdBuffers := [command.cmdBuffer, second];
      imageAquiredSemaphores := new Semaphore[2](i => ImageAcquired(0));
      renderFinishedSemaphores := new Semaphore[2](i => RenderFinished(0));
      inFlightFences := new FenceState[2](i => Unsignalled);
      currentFrame := 0;
      requestNewSwapchain := false;
      doVsync := true;
      immediateFence := Unsignalled;
      calls := [];
      new;
      CreateFencesAndSemaphores();
    }

    /** One semaphore of each kind per slot; slot 1's fence starts signalled, so the
        first advance to slot 1 does not wait for a submission that never happened;
        slot 0's fence and the immediate fence start unsignalled. */
    method CreateFencesAndSemaphores()
      requires imageAquiredSemaphores.Length == 2 && renderFinishedSemaphores.Length == 2 && inFlightFences.Length == 2
      requires imageAquiredSemaphores != renderFinishedSemaphores
      modifies this, imageAquiredSemaphores, renderFinishedSemaphores, inFlightFences
      ensures imageAquiredSemaphores[..] == [ImageAcquired(0), ImageAcquired(1)]
      ensures renderFinishedSemaphores[..] == [RenderFinished(0), RenderFinished(1)]
      ensures inFlightFences[..] == [Unsignalled, Signalled] && immediateFence == Unsignalled
      ensures currentFrame == old(currentFrame) && requestNewSwapchain == old(requestNewSwapchain)
      ensures doVsync == old(doVsync) && calls == old(calls)
    {
      imageAquiredSemaphores[0] := ImageAcquired(0);
      renderFinishedSemaphores[0] := RenderFinished(0);
      imageAquiredSemaphores[1] := ImageAcquired(1);
      renderFinishedSemaphores[1] := RenderFinished(1);
      inFlightFences[1] := Signalled;
      inFlightFences[0] := Unsignalled;
      immediateFence := Unsignalled;
    }

    /** Submitting with a fence: the fence must not be in use. */
    method SubmitFence(slot: nat)
      requires slot < inFlightFences.Length && inFlightFences[slot] == Unsignalled
      modifies inFlightFences
      ensures inFlightFences[..] == old(inFlightFences[..])[slot := Pending]
    {
      inFlightFences[slot] := Pending;
    }

    /** Waiting on a fence with no timeout: it returns only for a fence that has been
        submitted or signalled, and leaves it signalled. */
    method WaitFence(slot: nat)
      requires slot < inFlightFences.Length && inFlightFences[slot] != Unsignalled
      modifies inFlightFences
      ensures inFlightFences[..] == old(inFlightFences[..])[slot := Signalled]
    {
      inFlightFences[slot] := Signalled;
    }

    /** Resetting a fence: only a fence whose work is done may be reset. */
    method ResetFence(slot: nat)
      requires slot < inFlightFences.Length && inFlightFences[slot] != Pending
      modifies inFlightFences
      ensures inFlightFences[..] == old(inFlightFences[..])[slot := Unsignalled]
    {
      inFlightFences[slot] := Unsignalled;
    }

    /** Waits for a slot's fence and resets it, logging both calls. */
    method RetireFence(slot: nat)
      requires slot < inFlightFences.Length && inFlightFences[slot] != Unsignalled
      modifies this, inFlightFences
      ensures inFlightFences[..] == old(inFlightFences[..])[slot := Unsignalled]
      ensures calls == old(calls) + [WaitForFence(InFlight(slot)), FrameCall.ResetFence(InFlight(slot))]
      ensures currentFrame == old(currentFrame) && requestNewSwapchain == old(requestNewSwapchain)
      ensures doVsync == old(doVsync) && immediateFence == old(immediateFence)
    {
      WaitFence(slot);
      ResetFence(slot);
      calls := calls + [WaitForFence(InFlight(slot)), FrameCall.ResetFence(InFlight(slot))];
    }

    /** Resetting the command pool empties every buffer allocated from it. */
    method ResetCommandPool()
      requires Valid()
      modifies this, cmdBuffers[0], cmdBuffers[1]
      ensures cmdBuffers[0].log == [] && cmdBuffers[1].log == []
      ensures calls == old(calls) + [FrameCall.ResetCommandPool]
      ensures currentFrame == old(currentFrame) && requestNewSwapchain == old(requestNewSwapchain)
      ensures doVsync == old(doVsync) && immediateFence == old(immediateFence)
    {
      cmdBuffers[0].Reset();
      cmdBuffers[1].Reset();
      calls := calls + [FrameCall.ResetCommandPool];
    }

    /** Acquires the next image with the current slot's semaphore. A suboptimal or
        out-of-date result recreates the swapchain, clears requestNewSwapchain and
        reports failure; any other result reports success. The index is the driver's. */
    method AquireImageIndex(acquired: AcquireResult, nextIndex: u32,
                            w: int, h: int, created: SwapchainHandle, createdImages: seq<ImageHandle>)
      returns (ok: bool, index: u32)
      requires Valid()
      requires |createdImages| <= IMAGE_COUNT
      modifies this, swapchain
      ensures Valid()
      ensures index == nextIndex
      ensures ok <==> !NeedsRecreate(acquired)
      ensures currentFrame == old(currentFrame) && doVsync == old(doVsync) && immediateFence == old(immediateFence)
      ensures ok ==> calls == old(calls) + [AcquireNextImage(ImageAcquired(currentFrame))]
      ensures ok ==> requestNewSwapchain == old(requestNewSwapchain) && unchanged(swapchain)
      ensures !ok ==> calls == old(calls) + [AcquireNextImage(ImageAcquired(currentFrame)), RecreateSwapchain]
      ensures !ok ==> !requestNewSwapchain
      ensures !ok ==> swapchain.images == createdImages && swapchain.renderExtent == Extent2D(Wrap32(w), Wrap32(h))
    {
      calls := calls + [AcquireNextImage(imageAquiredSemaphores[currentFrame])];
      index := nextIndex;
      if NeedsRecreate(acquired) {
        RebuildSwapchain(w, h, created, createdImages);
        requestNewSwapchain := false;
        return false, index;
      }
      ok := true;
    }

    /** The UI pass: the vsync checkbox toggles doVsync when clicked, and its result
        overwrites requestNewSwapchain. */
    method ImGuiDraw(vsyncClicked: bool)
      modifies this
      ensures requestNewSwapchain == vsyncClicked
      ensures doVsync == (old(doVsync) != vsyncClicked)
      ensures currentFrame == old(currentFrame) && immediateFence == old(immediateFence) && calls == old(calls)
    {
      if vsyncClicked {
        doVsync := !doVsync;
      }
      requestNewSwapchain := vsyncClicked;
    }

    /** Records the start of the frame into the current slot's buffer. */
    method BeginRendering(imageIndex: u32)
      requires Valid() && command.cmdBuffer == cmdBuffers[currentFrame]
      requires imageIndex < |swapchain.images|
      modifies cmdBuffers[currentFrame]
      ensures cmdBuffers[currentFrame].log == old(cmdBuffers[currentFrame].log)
        + BeginRenderingCmds(swapchain.images[imageIndex], depthImages[imageIndex],
                             swapchain.imageViews[imageIndex], swapchain.renderExtent)
    {
      var buf := cmdBuffers[currentFrame];
      var depth := depthImages[imageIndex];
      ghost var log0 := buf.log;
      buf.Record(BeginCmd);
      command.TransitionImage(swapchain.images[imageIndex], ColorAspect, Undefined, ColorAttachmentOptimal,
                              ACCESS_NONE, {ColorAttachmentWrite});
      command.TransitionImage(depth.image, DepthStencilAspect, Undefined, DepthStencilAttachmentOptimal,
                              ACCESS_NONE, DEPTH_READ_WRITE);
      ghost var head := [BeginCmd,
        TransitionCmd(swapchain.images[imageIndex], ColorAspect, Undefined, ColorAttachmentOptimal, ACCESS_NONE, {ColorAttachmentWrite}),
        TransitionCmd(depth.image, DepthStencilAspect, Undefined, DepthStencilAttachmentOptimal, ACCESS_NONE, DEPTH_READ_WRITE)];
      assert buf.log == log0 + head;
      command.SetDynamicStates();
      RecordRenderingSetup(buf, swapchain.renderExtent, swapchain.imageViews[imageIndex], depth.view);
      AppendAssoc(log0, head, SET_DYNAMIC_STATES_CMDS);
      AppendAssoc(log0, head + SET_DYNAMIC_STATES_CMDS,
                  RenderingSetupCmds(swapchain.renderExtent, swapchain.imageViews[imageIndex], depth.view));
    }

    /** Binds the descriptor sets and pushes the constants with the scene counters. */
    method PushConstantDraw(sizes: PoolSizes)
      requires Valid()
      modifies cmdBuffers[currentFrame]
      ensures cmdBuffers[currentFrame].log == old(cmdBuffers[currentFrame].log)
        + [BindDescriptorSets, PushConstants(SceneInfoOf(sizes.meshViews, sizes.pointLights, sizes.spotLights, sizes.dirLights))]
    {
      var sceneInfo := SceneInfoOf(sizes.meshViews, sizes.pointLights, sizes.spotLights, sizes.dirLights);
      cmdBuffers[currentFrame].Record(BindDescriptorSets);
      cmdBuffers[currentFrame].Record(PushConstants(sceneInfo));
    }

    /** Records the end of the frame into the current slot's buffer. */
    method EndFrame(imageIndex: u32)
      requires Valid() && command.cmdBuffer == cmdBuffers[currentFrame]
      requires imageIndex < |swapchain.images|
      modifies cmdBuffers[currentFrame]
      ensures cmdBuffers[currentFrame].log == old(cmdBuffers[currentFrame].log)
        + EndFrameCmds(swapchain.images[imageIndex], depthImages[imageIndex].image)
    {
      var buf := cmdBuffers[currentFrame];
      buf.Record(EndRenderingCmd);
      command.TransitionImage(swapchain.images[imageIndex], ColorAspect, ColorAttachmentOptimal, PresentSrc,
                              {ColorAttachmentWrite}, ACCESS_NONE);
      command.TransitionImage(depthImages[imageIndex].image, DepthStencilAspect, DepthStencilAttachmentOptimal, PresentSrc,
                              DEPTH_READ_WRITE, ACCESS_NONE);
      buf.Record(EndCmd);
    }

    /** Submits the current slot's buffer, waiting on its image-acquired semaphore,
        signalling its render-finished semaphore and its fence, and queues the
        presentation of the image behind the render-finished semaphore. */
    method SubmitFrame(imageIndex: u32)
      requires Valid() && inFlightFences[currentFrame] == Unsignalled
      modifies this, inFlightFences
      ensures Valid()
      ensures calls == old(calls) + [
        QueueSubmit([cmdBuffers[currentFrame].log], Some(ImageAcquired(currentFrame)), Some(RenderFinished(currentFrame)),
                    InFlight(currentFrame)),
        QueuePresent(imageIndex, RenderFinished(currentFrame))]
      ensures inFlightFences[..] == old(inFlightFences[..])[currentFrame := Pending]
      ensures currentFrame == old(currentFrame) && requestNewSwapchain == old(requestNewSwapchain)
      ensures doVsync == old(doVsync) && immediateFence == old(immediateFence)
    {
      var slot := currentFrame;
      calls := calls + [QueueSubmit([cmdBuffers[slot].log], Some(imageAquiredSemaphores[slot]),
                                    Some(renderFinishedSemaphores[slot]), InFlight(slot))];
      SubmitFence(slot);
      calls := calls + [QueuePresent(imageIndex, renderFinishedSemaphores[slot])];
    }

    /** The recovery after a failed presentation or a swapchain request: wait for the
        frame just submitted, reset its fence and the whole pool, recreate the
        swapchain, and stay on the same slot. */
    method Recover(w: int, h: int, created: SwapchainHandle, createdImages: seq<ImageHandle>)
      requires Valid() && inFlightFences[currentFrame] == Pending
      requires |createdImages| <= IMAGE_COUNT
      modifies this, inFlightFences, cmdBuffers[0], cmdBuffers[1], swapchain
      ensures Valid()
      ensures !requestNewSwapchain
      ensures currentFrame == old(currentFrame) && doVsync == old(doVsync) && immediateFence == old(immediateFence)
      ensures inFlightFences[..] == old(inFlightFences[..])[currentFrame := Unsignalled]
      ensures cmdBuffers[0].log == [] && cmdBuffers[1].log == []
      ensures calls == old(calls) + [WaitForFence(InFlight(currentFrame)), FrameCall.ResetFence(InFlight(currentFrame)),
                                     FrameCall.ResetCommandPool, RecreateSwapchain]
      ensures swapchain.images == createdImages && swapchain.renderExtent == Extent2D(Wrap32(w), Wrap32(h))
    {
      requestNewSwapchain := false;
      RetireFence(currentFrame);
      ResetCommandPool();
      RebuildSwapchain(w, h, created, createdImages);
      var waitReset := [WaitForFence(InFlight(currentFrame)), FrameCall.ResetFence(InFlight(currentFrame))];
      AppendAssoc(old(calls), waitReset, [FrameCall.ResetCommandPool]);
      AppendAssoc(old(calls), waitReset + [FrameCall.ResetCommandPool], [RecreateSwapchain]);
      assert waitReset + [FrameCall.ResetCommandPool] + [RecreateSwapchain]
        == [WaitForFence(InFlight(currentFrame)), FrameCall.ResetFence(InFlight(currentFrame)),
            FrameCall.ResetCommandPool, RecreateSwapchain];
    }

    /** Recreates the swapchain for a w x h window with the images the driver hands
        back, logging the recreation; the slots are left as they are. */
    method RebuildSwapchain(w: int, h: int, created: SwapchainHandle, createdImages: seq<ImageHandle>)
      requires Valid() && |createdImages| <= IMAGE_COUNT
      modifies this, swapchain
      ensures Valid()
      ensures swapchain.images == createdImages && swapchain.renderExtent == Extent2D(Wrap32(w), Wrap32(h))
      ensures calls == old(calls) + [RecreateSwapchain]
      ensures currentFrame == old(currentFrame) && requestNewSwapchain == old(requestNewSwapchain)
      ensures doVsync == old(doVsync) && immediateFence == old(immediateFence)
    {
      swapchain.Recreate(w, h, created, createdImages);
      calls := calls + [RecreateSwapchain];
    }

    /** The advance after a successful presentation: move to the other slot, wait for
        its previous submission, reset its fence and its buffer. */
    method Advance()
      requires Valid() && inFlightFences[1 - currentFrame] != Unsignalled
      modifies this, inFlightFences, cmdBuffers[1 - currentFrame]
      ensures Valid()
      ensures currentFrame == 1 - old(currentFrame)
      ensures requestNewSwapchain == old(requestNewSwapchain) && doVsync == old(doVsync) && immediateFence == old(immediateFence)
      ensures inFlightFences[..] == old(inFlightFences[..])[currentFrame := Unsignalled]
      ensures cmdBuffers[currentFrame].log == []
      ensures calls == old(calls) + [WaitForFence(InFlight(currentFrame)), FrameCall.ResetFence(InFlight(currentFrame)),
                                     ResetCommandBuffer(currentFrame)]
    {
      currentFrame := (currentFrame + 1) % 2;
      RetireFence(currentFrame);
      cmdBuffers[currentFrame].Reset();
      calls := calls + [ResetCommandBuffer(currentFrame)];
    }

    /** Ends and submits the frame, presents, and then either advances to the other
        slot or, when presentation threw or a new swapchain was requested, recovers
        on the same slot. Either way the next frame finds its slot ready. */
    method SubmitAndPresent(imageIndex: u32, presentOk: bool,
                            w: int, h: int, created: SwapchainHandle, createdImages: seq<ImageHandle>)
      requires Valid() && command.cmdBuffer == cmdBuffers[currentFrame]
      requires |createdImages| <= IMAGE_COUNT
      requires inFlightFences[currentFrame] == Unsignalled && inFlightFences[1 - currentFrame] != Unsignalled
      requires imageIndex < |swapchain.images|
      modifies this, inFlightFences, cmdBuffers[0], cmdBuffers[1], swapchain
      ensures FrameReady()
      ensures !requestNewSwapchain
      ensures doVsync == old(doVsync) && immediateFence == old(immediateFence)
      ensures var slot := old(currentFrame);
        var frame := old(cmdBuffers[currentFrame].log) + EndFrameCmds(old(swapchain.images)[imageIndex], depthImages[imageIndex].image);
        var presented := presentOk && !old(requestNewSwapchain);
        calls == old(calls) + PresentCalls(slot, frame, imageIndex, presented)
        && currentFrame == (if presented then 1 - slot else slot)
        && (presented ==> cmdBuffers[slot].log == frame && inFlightFences[slot] == Pending && unchanged(swapchain))
        && (!presented ==> swapchain.images == createdImages && swapchain.renderExtent == Extent2D(Wrap32(w), Wrap32(h)))
    {
      EndFrame(imageIndex);
      SubmitFrame(imageIndex);
      if !presentOk {
        requestNewSwapchain := true;
      }
      if requestNewSwapchain {
        Recover(w, h, created, createdImages);
        return;
      }
      Advance();
    }

    /** One frame. When the acquire asks for a new swapchain, the frame is abandoned
        before anything is recorded, submitted or presented, and the slot stays.
        Otherwise the whole frame is recorded into the current slot's buffer and
        submitted; the slot advances exactly when presentation succeeded and the
        vsync checkbox was not clicked. Either way the loop is ready for the next
        frame and no swapchain request is left over. */
    method Draw(acquired: AcquireResult, nextIndex: u32, vsyncClicked: bool, presentOk: bool,
                sizes: PoolSizes, meshlets: MeshletBuffers, w: int, h: int, created: SwapchainHandle, createdImages: seq<ImageHandle>)
      requires FrameReady()
      requires |createdImages| <= IMAGE_COUNT
      requires !NeedsRecreate(acquired) ==> nextIndex < |swapchain.images|
      modifies this, inFlightFences, cmdBuffers[0], cmdBuffers[1], command, swapchain
      ensures FrameReady()
      ensures !requestNewSwapchain
      ensures command.cmdBuffer == cmdBuffers[old(currentFrame)]
      ensures NeedsRecreate(acquired) ==>
        calls == old(calls) + [AcquireNextImage(ImageAcquired(old(currentFrame))), RecreateSwapchain]
        && currentFrame == old(currentFrame) && doVsync == old(doVsync)
        && inFlightFences[..] == old(inFlightFences[..])
        && cmdBuffers[0].log == old(cmdBuffers[0].log) && cmdBuffers[1].log == old(cmdBuffers[1].log)
        && swapchain.images == createdImages && swapchain.renderExtent == Extent2D(Wrap32(w), Wrap32(h))
      ensures !NeedsRecreate(acquired) ==>
        var slot := old(currentFrame);
        var frame := FrameCmds(old(swapchain.images)[nextIndex], depthImages[nextIndex], old(swapchain.imageViews)[nextIndex],
                               old(swapchain.renderExtent),
                               SceneInfoOf(sizes.meshViews, sizes.pointLights, sizes.spotLights, sizes.dirLights),
                               |meshlets.meshlets|);
        var presented := presentOk && !vsyncClicked;
        calls == old(calls) + FrameCalls(slot, frame, nextIndex, presented)
        && currentFrame == (if presented then 1 - slot else slot)
        && doVsync == (old(doVsync) != vsyncClicked)
        && (presented ==> cmdBuffers[slot].log == frame && inFlightFences[slot] == Pending)
        && (presented ==> swapchain.images == old(swapchain.images) && swapchain.imageViews == old(swapchain.imageViews)
                          && swapchain.renderExtent == old(swapchain.renderExtent))
        && (!presented ==> swapchain.images == createdImages && swapchain.renderExtent == Extent2D(Wrap32(w), Wrap32(h)))
    {
      command.SetCurrentFrame(cmdBuffers[currentFrame]);
      var ok, imageIndex := AquireImageIndex(acquired, nextIndex, w, h, created, createdImages);
      if !ok {
        return;
      }
      RecordAndPresent(imageIndex, vsyncClicked, presentOk, sizes, meshlets, w, h, created, createdImages);
      AppendAssoc(old(calls), [AcquireNextImage(ImageAcquired(old(currentFrame)))],
                  PresentCalls(old(currentFrame), FrameCmds(old(swapchain.images)[nextIndex], depthImages[nextIndex],
                                                            old(swapchain.imageViews)[nextIndex], old(swapchain.renderExtent),
                                                            SceneInfoOf(sizes.meshViews, sizes.pointLights, sizes.spotLights, sizes.dirLights),
                                                            |meshlets.meshlets|),
                               nextIndex, presentOk && !vsyncClicked));
    }

    /** The part of Draw after an image was acquired: the UI, the recording of the
        whole frame into the current slot's buffer, its submission and presentation,
        and the advance or recovery that follows. */
    method RecordAndPresent(imageIndex: u32, vsyncClicked: bool, presentOk: bool, sizes: PoolSizes, meshlets: MeshletBuffers,
                            w: int, h: int, created: SwapchainHandle, createdImages: seq<ImageHandle>)
      requires FrameReady() && command.cmdBuffer == cmdBuffers[currentFrame]
      requires |createdImages| <= IMAGE_COUNT
      requires imageIndex < |swapchain.images|
      modifies this, inFlightFences, cmdBuffers[0], cmdBuffers[1], swapchain
      ensures FrameReady()
      ensures !requestNewSwapchain
      ensures var slot := old(currentFrame);
        var frame := FrameCmds(old(swapchain.images)[imageIndex], depthImages[imageIndex], old(swapchain.imageViews)[imageIndex],
                               old(swapchain.renderExtent),
                               SceneInfoOf(sizes.meshViews, sizes.pointLights, sizes.spotLights, sizes.dirLights),
                               |meshlets.meshlets|);
        var presented := presentOk && !vsyncClicked;
        calls == old(calls) + PresentCalls(slot, frame, imageIndex, presented)
        && currentFrame == (if presented then 1 - slot else slot)
        && doVsync == (old(doVsync) != vsyncClicked)
        && (presented ==> cmdBuffers[slot].log == frame && inFlightFences[slot] == Pending)
        && (presented ==> swapchain.images == old(swapchain.images) && swapchain.imageViews == old(swapchain.imageViews)
                          && swapchain.renderExtent == old(swapchain.renderExtent))
        && (!presented ==> swapchain.images == createdImages && swapchain.renderExtent == Extent2D(Wrap32(w), Wrap32(h)))
    {
      ghost var acquiredCalls := calls;
      ImGuiDraw(vsyncClicked);
      RecordFrame(imageIndex, sizes, meshlets);
      ghost var recorded := cmdBuffers[currentFrame].log;
      ghost var frame := FrameCmds(swapchain.images[imageIndex], depthImages[imageIndex], swapchain.imageViews[imageIndex],
                                   swapchain.renderExtent,
                                   SceneInfoOf(sizes.meshViews, sizes.pointLights, sizes.spotLights, sizes.dirLights),
                                   |meshlets.meshlets|);
      assert recorded + EndFrameCmds(swapchain.images[imageIndex], depthImages[imageIndex].image) == frame;
      SubmitAndPresent(imageIndex, presentOk, w, h, created, createdImages);
      assert calls == acquiredCalls + PresentCalls(old(currentFrame), frame, imageIndex, presentOk && !vsyncClicked);
    }

    /** The recording part of Draw: BeginRendering, the push constants, the shader
        binding, one mesh-task group per entry of the meshlet array, and the UI. */
    method RecordFrame(imageIndex: u32, sizes: PoolSizes, meshlets: MeshletBuffers)
      requires Valid() && command.cmdBuffer == cmdBuffers[currentFrame]
      requires imageIndex < |swapchain.images|
      modifies cmdBuffers[currentFrame]
      ensures cmdBuffers[currentFrame].log == old(cmdBuffers[currentFrame].log)
        + BeginRenderingCmds(swapchain.images[imageIndex], depthImages[imageIndex],
                             swapchain.imageViews[imageIndex], swapchain.renderExtent)
        + DrawCmds(SceneInfoOf(sizes.meshViews, sizes.pointLights, sizes.spotLights, sizes.dirLights), |meshlets.meshlets|)
    {
      BeginRendering(imageIndex);
      PushConstantDraw(sizes);
      var buf := cmdBuffers[currentFrame];
      buf.Record(BindShaders);
      buf.Record(DrawMeshTasks(Wrap32(|meshlets.meshlets|), 1, 1));
      buf.Record(RenderUi);
    }

    /** Runs a recording callback on both slot buffers and waits for it: reset the
        immediate fence, begin both buffers, let the callback record into the
        current slot's buffer, end both, submit both with the immediate fence and
        wait for it. */
    method SubmitImmediate(recorded: seq<Cmd>)
      requires Valid()
      modifies this, cmdBuffers[0], cmdBuffers[1]
      ensures Valid()
      ensures immediateFence == Signalled
      ensures var log0 := old(cmdBuffers[0].log) + [BeginCmd] + (if currentFrame == 0 then recorded else []) + [EndCmd];
        var log1 := old(cmdBuffers[1].log) + [BeginCmd] + (if currentFrame == 1 then recorded else []) + [EndCmd];
        cmdBuffers[0].log == log0 && cmdBuffers[1].log == log1
        && calls == old(calls) + [FrameCall.ResetFence(ImmediateFence), QueueSubmit([log0, log1], None, None, ImmediateFence),
                                  WaitForFence(ImmediateFence)]
      ensures currentFrame == old(currentFrame) && requestNewSwapchain == old(requestNewSwapchain) && doVsync == old(doVsync)
    {
      immediateFence := Unsignalled;
      calls := calls + [FrameCall.ResetFence(ImmediateFence)];
      RecordImmediate(recorded);
      calls := calls + [QueueSubmit([cmdBuffers[0].log, cmdBuffers[1].log], None, None, ImmediateFence)];
      immediateFence := Pending;
      calls := calls + [WaitForFence(ImmediateFence)];
      immediateFence := Signalled;
    }

    /** The recording part of SubmitImmediate: both slot buffers are begun and ended,
        and the callback's commands go into the current slot's buffer. */
    method RecordImmediate(recorded: seq<Cmd>)
      requires Valid()
      modifies cmdBuffers[0], cmdBuffers[1]
      ensures cmdBuffers[0].log == old(cmdBuffers[0].log) + [BeginCmd] + (if currentFrame == 0 then recorded else []) + [EndCmd]
      ensures cmdBuffers[1].log == old(cmdBuffers[1].log) + [BeginCmd] + (if currentFrame == 1 then recorded else []) + [EndCmd]
    {
      cmdBuffers[0].Record(BeginCmd);
      cmdBuffers[1].Record(BeginCmd);
      cmdBuffers[currentFrame].RecordAll(recorded);
      cmdBuffers[0].Record(EndCmd);
      cmdBuffers[1].Record(EndCmd);
    }
  }
}
