/** Command recording (Command.cpp). A command buffer is the log of the commands
    recorded into it; the dynamic state a later command sees is the replay of that
    log with the last write to each state winning. */
module Commands {
  import opened Common
  import opened Images
  import opened Swapchains
  import opened Scene

  datatype ImageLayout =
    | Undefined
    | ColorAttachmentOptimal
    | DepthStencilAttachmentOptimal
    | TransferDstOptimal
    | ShaderReadOnlyOptimal
    | PresentSrc

  datatype Access =
    | ColorAttachmentWrite
    | DepthStencilAttachmentRead
    | DepthStencilAttachmentWrite
    | TransferWrite
    | ShaderSampledRead

  /** An empty access set is vk::AccessFlagBits2::eNone. */
  const ACCESS_NONE: set<Access> := {}

  datatype Stage = AllCommands | ColorAttachmentOutput

  /** Which aspects a barrier's subresource range covers: the swapchain's colour range
      or the depth images' depth-and-stencil range (one level, one layer each). */
  datatype Aspect = ColorAspect | DepthStencilAspect

  /** vk::QueueFamilyIgnored. */
  const QUEUE_FAMILY_IGNORED: u32 := 0xFFFF_FFFF

  datatype ImageBarrier = ImageBarrier(
    image: ImageHandle,
    aspect: Aspect,
    oldLayout: ImageLayout,
    newLayout: ImageLayout,
    srcQueueFamily: u32,
    dstQueueFamily: u32,
    srcAccess: set<Access>,
    dstAccess: set<Access>,
    srcStage: Stage,
    dstStage: Stage)

  datatype CompareOp = Never | Less | Equal | LessOrEqual | Greater | NotEqual | GreaterOrEqual | Always
  datatype PolygonMode = Fill | Line | Point
  datatype CullMode = CullNone | CullFront | CullBack | CullFrontAndBack
  datatype FrontFace = CounterClockwise | Clockwise
  datatype Topology = PointList | LineList | LineStrip | TriangleList | TriangleStrip | TriangleFan
  datatype ColorComponent = R | G | B | A
  datatype BlendOp = Add | Subtract | ReverseSubtract | Min | Max
  datatype BlendFactor = Zero | One | SrcAlpha | OneMinusSrcAlpha | OtherFactor(code: nat)

  /** vk::ColorBlendEquationEXT; the alpha fields keep their zero defaults. */
  datatype BlendEquation = BlendEquation(
    srcColorFactor: BlendFactor, dstColorFactor: BlendFactor, colorOp: BlendOp,
    srcAlphaFactor: BlendFactor, dstAlphaFactor: BlendFactor, alphaOp: BlendOp)

  /** One dynamic-state setter call. Attachment-indexed setters carry the first
      attachment they write. */
  datatype DynamicWrite =
    | RasterizerDiscardEnable(on: bool)
    | DepthTestEnable(on: bool)
    | DepthWriteEnable(on: bool)
    | DepthCompareOp(op: CompareOp)
    | StencilTestEnable(on: bool)
    | DepthClampEnable(on: bool)
    | DepthBiasEnable(on: bool)
    | SetPolygonMode(mode: PolygonMode)
    | RasterizationSamples(samples: nat)
    | SampleMask(samples: nat, mask: u32)
    | AlphaToCoverageEnable(on: bool)
    | SetCullMode(cull: CullMode)
    | SetFrontFace(face: FrontFace)
    | PrimitiveTopology(topology: Topology)
    | PrimitiveRestartEnable(on: bool)
    | ColorBlendEnable(attachment: nat, on: bool)
    | ColorWriteMask(attachment: nat, components: set<ColorComponent>)
    | ColorBlendEquation(attachment: nat, equation: BlendEquation)
    | ViewportWithCount(width: u32, height: u32)
    | ScissorWithCount(extent: Extent2D)

  datatype Cmd =
    | BeginCmd
    | EndCmd
    | PipelineBarrier(barriers: seq<ImageBarrier>)
    | SetState(write: DynamicWrite)
    | BeginRenderingCmd(extent: Extent2D, colorView: ImageView, depthView: ImageView)
    | EndRenderingCmd
    | BindShaders
    | BindDescriptorSets
    | PushConstants(sceneInfo: SceneInfo)
    | DrawMeshTasks(x: nat, y: nat, z: nat)
    | RenderUi
    | CopyBuffer(src: nat, dst: nat, srcOffset: nat, dstOffset: nat, size: nat)
    | CopyBufferToImage(buffer: nat, image: ImageHandle)

  /** The dynamic state a command sees: None where nothing was written since the
      buffer began. */
  datatype DynamicState = DynamicState(
    rasterizerDiscard: Option<bool>,
    depthTest: Option<bool>,
    depthWrite: Option<bool>,
    depthCompare: Option<CompareOp>,
    stencilTest: Option<bool>,
    depthClamp: Option<bool>,
    depthBias: Option<bool>,
    polygonMode: Option<PolygonMode>,
    samples: Option<nat>,
    sampleMask: Option<u32>,
    alphaToCoverage: Option<bool>,
    cullMode: Option<CullMode>,
    frontFace: Option<FrontFace>,
    topology: Option<Topology>,
    primitiveRestart: Option<bool>,
    blendEnable: map<nat, bool>,
    writeMask: map<nat, set<ColorComponent>>,
    blendEquation: map<nat, BlendEquation>,
    viewport: Option<(u32, u32)>,
    scissor: Option<Extent2D>)

  const UNSET: DynamicState := DynamicState(None, None, None, None, None, None, None, None, None, None,
                                            None, None, None, None, None, map[], map[], map[], None, None)

  /** The effect of one command on the dynamic state: a setter overwrites its own
      state, beginning the buffer forgets everything, other commands leave it. */
  function Step(s: DynamicState, c: Cmd): DynamicState {
    match c
    case BeginCmd => UNSET
    case SetState(w) =>
      (match w
       case RasterizerDiscardEnable(on) => s.(rasterizerDiscard := Some(on))
       case DepthTestEnable(on) => s.(depthTest := Some(on))
       case DepthWriteEnable(on) => s.(depthWrite := Some(on))
       case DepthCompareOp(op) => s.(depthCompare := Some(op))
       case StencilTestEnable(on) => s.(stencilTest := Some(on))
       case DepthClampEnable(on) => s.(depthClamp := Some(on))
       case DepthBiasEnable(on) => s.(depthBias := Some(on))
       case SetPolygonMode(mode) => s.(polygonMode := Some(mode))
       case RasterizationSamples(n) => s.(samples := Some(n))
       case SampleMask(_, mask) => s.(sampleMask := Some(mask))
       case AlphaToCoverageEnable(on) => s.(alphaToCoverage := Some(on))
       case SetCullMode(cull) => s.(cullMode := Some(cull))
       case SetFrontFace(face) => s.(frontFace := Some(face))
       case PrimitiveTopology(t) => s.(topology := Some(t))
       case PrimitiveRestartEnable(on) => s.(primitiveRestart := Some(on))
       case ColorBlendEnable(a, on) => s.(blendEnable := s.blendEnable[a := on])
       case ColorWriteMask(a, cs) => s.(writeMask := s.writeMask[a := cs])
       case ColorBlendEquation(a, eq) => s.(blendEquation := s.blendEquation[a := eq])
       case ViewportWithCount(w, h) => s.(viewport := Some((w, h)))
       case ScissorWithCount(e) => s.(scissor := Some(e)))
    case _ => s
  }

  /** The state after replaying log on top of s. */
  function ReplayFrom(s: DynamicState, log: seq<Cmd>): DynamicState {
    if |log| == 0 then s else Step(ReplayFrom(s, log[..|log| - 1]), log[|log| - 1])
  }

  /** The state after a whole recording. */
  function Replay(log: seq<Cmd>): DynamicState {
    ReplayFrom(UNSET, log)
  }

  /** Replaying a concatenation replays the second part on the first part's result. */
  lemma {:induction false} ReplayAppend(s: DynamicState, a: seq<Cmd>, b: seq<Cmd>)
    ensures ReplayFrom(s, a + b) == ReplayFrom(ReplayFrom(s, a), b)
    decreases |b|
  {
    if |b| > 0 {
      assert (a + b)[..|a + b| - 1] == a + b[..|b| - 1];
      ReplayAppend(s, a, b[..|b| - 1]);
    } else {
      assert a + b == a;
    }
  }

  /** A command that writes no dynamic state leaves the replayed state alone. */
  predicate StateNeutral(c: Cmd) {
    !c.BeginCmd? && !c.SetState?
  }

  lemma {:induction false} ReplayNeutral(s: DynamicState, log: seq<Cmd>)
    requires forall i :: 0 <= i < |log| ==> StateNeutral(log[i])
    ensures ReplayFrom(s, log) == s
    decreases |log|
  {
    if |log| > 0 {
      ReplayNeutral(s, log[..|log| - 1]);
    }
  }

  /** A layout change recorded for one image: (old layout, new layout). */
  datatype LayoutChange = LayoutChange(from: ImageLayout, to: ImageLayout)

  /** The layout changes the barriers in log apply to image, in recording order. */
  function Transitions(log: seq<Cmd>, image: ImageHandle): seq<LayoutChange> {
    if |log| == 0 then []
    else
      var last := log[|log| - 1];
      Transitions(log[..|log| - 1], image)
      + (if last.PipelineBarrier? then BarrierChanges(last.barriers, image) else [])
  }

  function BarrierChanges(bs: seq<ImageBarrier>, image: ImageHandle): seq<LayoutChange> {
    if |bs| == 0 then []
    else
      BarrierChanges(bs[..|bs| - 1], image)
      + (if bs[|bs| - 1].image == image then [LayoutChange(bs[|bs| - 1].oldLayout, bs[|bs| - 1].newLayout)] else [])
  }

  lemma {:induction false} TransitionsAppend(a: seq<Cmd>, b: seq<Cmd>, image: ImageHandle)
    ensures Transitions(a + b, image) == Transitions(a, image) + Transitions(b, image)
    decreases |b|
  {
    if |b| > 0 {
      assert (a + b)[..|a + b| - 1] == a + b[..|b| - 1];
      TransitionsAppend(a, b[..|b| - 1], image);
    } else {
      assert a + b == a;
    }
  }

  /** A log without barriers changes no layout. */
  lemma {:induction false} TransitionsNone(log: seq<Cmd>, image: ImageHandle)
    requires forall i :: 0 <= i < |log| ==> !log[i].PipelineBarrier?
    ensures Transitions(log, image) == []
    decreases |log|
  {
    if |log| > 0 {
      TransitionsNone(log[..|log| - 1], image);
    }
  }

  /** The layout changes of one command. */
  lemma TransitionsSingle(c: Cmd, image: ImageHandle)
    ensures Transitions([c], image) == if c.PipelineBarrier? then BarrierChanges(c.barriers, image) else []
  {
    assert [c][..0] == [];
  }

  /** SetDynamicStates records no barrier, so it changes no layout. */
  lemma SetDynamicStatesKeepLayouts(image: ImageHandle)
    ensures Transitions(SET_DYNAMIC_STATES_CMDS, image) == []
  {
    TransitionsNone(SET_DYNAMIC_STATES_CMDS, image);
  }

  /** A chain: each change starts in the layout the previous one left. */
  predicate Chained(ts: seq<LayoutChange>) {
    forall i :: 0 < i < |ts| ==> ts[i - 1].to == ts[i].from
  }

  /** Rasterizer discard, depth test, depth write, compare op, stencil, depth clamp. */
  const DYNAMIC_GROUP_1: seq<Cmd> := [
    SetState(RasterizerDiscardEnable(false)),
    SetState(DepthTestEnable(false)),
    SetState(DepthWriteEnable(false)),
    SetState(DepthCompareOp(Always)),
    SetState(StencilTestEnable(false)),
    SetState(DepthClampEnable(false))
  ]

  /** Depth bias, polygon mode, samples, sample mask, alpha-to-coverage, cull mode. */
  const DYNAMIC_GROUP_2: seq<Cmd> := [
    SetState(DepthBiasEnable(false)),
    SetState(SetPolygonMode(Fill)),
    SetState(RasterizationSamples(1)),
    SetState(SampleMask(1, 1)),
    SetState(AlphaToCoverageEnable(false)),
    SetState(SetCullMode(CullNone))
  ]

  /** Front face, topology, primitive restart. */
  const DYNAMIC_GROUP_3: seq<Cmd> := [
    SetState(SetFrontFace(Clockwise)),
    SetState(PrimitiveTopology(TriangleList)),
    SetState(PrimitiveRestartEnable(false))
  ]

  /** Blend enable, colour write mask, blend equation of attachment 0. */
  const DYNAMIC_GROUP_4: seq<Cmd> := [
    SetState(ColorBlendEnable(0, true)),
    SetState(ColorWriteMask(0, {R, G, B, A})),
    SetState(ColorBlendEquation(0, BlendEquation(One, Zero, Add, Zero, Zero, Add)))
  ]

  /** The eighteen state writes SetDynamicStates records, in order. */
  const SET_DYNAMIC_STATES_CMDS: seq<Cmd> := DYNAMIC_GROUP_1 + DYNAMIC_GROUP_2 + DYNAMIC_GROUP_3 + DYNAMIC_GROUP_4

  /** What the state looks like after SetDynamicStates, starting from s: the
      viewport and scissor are the only states it does not write. */
  function AfterSetDynamicStates(s: DynamicState): DynamicState {
    Group4(Group3(Group2(Group1(s))))
  }

  /** Rasterizer discard, depth test, depth write, compare op, stencil, depth clamp. */
  function Group1(s: DynamicState): DynamicState {
    s.(rasterizerDiscard := Some(false), depthTest := Some(false), depthWrite := Some(false),
       depthCompare := Some(Always), stencilTest := Some(false), depthClamp := Some(false))
  }

  /** Depth bias, polygon mode, samples, sample mask, alpha-to-coverage, cull mode. */
  function Group2(s: DynamicState): DynamicState {
    s.(depthBias := Some(false), polygonMode := Some(Fill), samples := Some(1), sampleMask := Some(1),
       alphaToCoverage := Some(false), cullMode := Some(CullNone))
  }

  /** Front face, topology, primitive restart. */
  function Group3(s: DynamicState): DynamicState {
    s.(frontFace := Some(Clockwise), topology := Some(TriangleList), primitiveRestart := Some(false))
  }

  /** Blending on attachment 0: enabled, all four channels written, One/Zero/Add. */
  function Group4(s: DynamicState): DynamicState {
    s.(blendEnable := s.blendEnable[0 := true], writeMask := s.writeMask[0 := {R, G, B, A}],
       blendEquation := s.blendEquation[0 := BlendEquation(One, Zero, Add, Zero, Zero, Add)])
  }

  /** The one-barrier command TransitionImage records. */
  function TransitionCmd(image: ImageHandle, aspect: Aspect, oldLayout: ImageLayout, newLayout: ImageLayout,
                         srcMask: set<Access>, dstMask: set<Access>): Cmd
  {
    PipelineBarrier([ImageBarrier(image, aspect, oldLayout, newLayout, QUEUE_FAMILY_IGNORED, QUEUE_FAMILY_IGNORED,
                                  srcMask, dstMask, AllCommands, AllCommands)])
  }

  /** A recording: the commands recorded since the last reset. */
  class CommandBuffer {
    var log: seq<Cmd>

    constructor ()
      ensures log == []
    {
      log := [];
    }

    method Record(c: Cmd)
      modifies this
      ensures log == old(log) + [c]
    {
      log := log + [c];
    }

    /** What a recording callback handed to an immediate submission records. */
    method RecordAll(cs: seq<Cmd>)
      modifies this
      ensures log == old(log) + cs
    {
      log := log + cs;
    }

    /** vkResetCommandBuffer, or the reset of the pool the buffer came from. */
    method Reset()
      modifies this
      ensures log == []
    {
      log := [];
    }
  }

  datatype CommandBufferLevel = Primary | Secondary

  /** The command pool and the single allocation the constructor asks for. */
  datatype CommandPoolInfo = CommandPoolInfo(queueFamilyIndex: u32)
  datatype AllocateInfo = AllocateInfo(commandBufferCount: nat, level: CommandBufferLevel)

  class Command {
    var cmdPool: CommandPoolInfo
    var allocation: AllocateInfo
    /** The buffer the recording helpers write into. */
    var cmdBuffer: CommandBuffer

    /** One pool on the graphics family, one primary buffer allocated from it. */
    constructor (graphicsQueueFamilyIndex: u32)
      ensures cmdPool == CommandPoolInfo(graphicsQueueFamilyIndex)
      ensures allocation == AllocateInfo(1, Primary)
      ensures fresh(cmdBuffer) && cmdBuffer.log == []
    {
      cmdPool := CommandPoolInfo(graphicsQueueFamilyIndex);
      allocation := AllocateInfo(1, Primary);
      cmdBuffer := new CommandBuffer();
    }

    /** Points the recording helpers at one frame slot's buffer. */
    method SetCurrentFrame(target: CommandBuffer)
      modifies this
      ensures cmdBuffer == target
      ensures cmdPool == old(cmdPool) && allocation == old(allocation)
    {
      cmdBuffer := target;
    }

    /** Records exactly one image barrier: the given layouts and access masks, both
        queue families ignored, all-commands on both sides. */
    method TransitionImage(image: ImageHandle, aspect: Aspect, oldLayout: ImageLayout, newLayout: ImageLayout,
                           srcMask: set<Access>, dstMask: set<Access>)
      modifies cmdBuffer
      ensures cmdBuffer.log == old(cmdBuffer.log) + [PipelineBarrier([
        ImageBarrier(image, aspect, oldLayout, newLayout, QUEUE_FAMILY_IGNORED, QUEUE_FAMILY_IGNORED,
                     srcMask, dstMask, AllCommands, AllCommands)])]
      ensures cmdBuffer.log == old(cmdBuffer.log) + [TransitionCmd(image, aspect, oldLayout, newLayout, srcMask, dstMask)]
      ensures Replay(cmdBuffer.log) == Replay(old(cmdBuffer.log))
    {
      var barrier := ImageBarrier(image, aspect, oldLayout, newLayout, QUEUE_FAMILY_IGNORED, QUEUE_FAMILY_IGNORED,
                                  srcMask, dstMask, AllCommands, AllCommands);
      cmdBuffer.Record(PipelineBarrier([barrier]));
    }

    /** Writes the renderer's baseline dynamic state, one setter at a time. */
    method SetDynamicStates()
      modifies cmdBuffer
      ensures cmdBuffer.log == old(cmdBuffer.log) + SET_DYNAMIC_STATES_CMDS
    {
      var buf := cmdBuffer;
      ghost var log0 := buf.log;
      SetDepthStates(buf);
      SetRasterStates(buf);
      SetAssemblyStates(buf);
      SetBlendStates(buf);
      AppendAssoc(log0, DYNAMIC_GROUP_1, DYNAMIC_GROUP_2);
      AppendAssoc(log0, DYNAMIC_GROUP_1 + DYNAMIC_GROUP_2, DYNAMIC_GROUP_3);
      AppendAssoc(log0, DYNAMIC_GROUP_1 + DYNAMIC_GROUP_2 + DYNAMIC_GROUP_3, DYNAMIC_GROUP_4);
    }
  }

  /** The depth and rasterizer-discard setters of SetDynamicStates. */
  method SetDepthStates(buf: CommandBuffer)
    modifies buf
    ensures buf.log == old(buf.log) + DYNAMIC_GROUP_1
  {
    buf.Record(SetState(RasterizerDiscardEnable(false)));
    buf.Record(SetState(DepthTestEnable(false)));
    buf.Record(SetState(DepthWriteEnable(false)));
    buf.Record(SetState(DepthCompareOp(Always)));
    buf.Record(SetState(StencilTestEnable(false)));
    buf.Record(SetState(DepthClampEnable(false)));
  }

  /** The rasterization and multisample setters of SetDynamicStates. */
  method SetRasterStates(buf: CommandBuffer)
    modifies buf
    ensures buf.log == old(buf.log) + DYNAMIC_GROUP_2
  {
    buf.Record(SetState(DepthBiasEnable(false)));
    buf.Record(SetState(SetPolygonMode(Fill)));
    buf.Record(SetState(RasterizationSamples(1)));
    buf.Record(SetState(SampleMask(1, 1)));
    buf.Record(SetState(AlphaToCoverageEnable(false)));
    buf.Record(SetState(SetCullMode(CullNone)));
  }

  /** The input-assembly setters of SetDynamicStates. */
  method SetAssemblyStates(buf: CommandBuffer)
    modifies buf
    ensures buf.log == old(buf.log) + DYNAMIC_GROUP_3
  {
    buf.Record(SetState(SetFrontFace(Clockwise)));
    buf.Record(SetState(PrimitiveTopology(TriangleList)));
    buf.Record(SetState(PrimitiveRestartEnable(false)));
  }

  /** The colour-blend setters of SetDynamicStates. */
  method SetBlendStates(buf: CommandBuffer)
    modifies buf
    ensures buf.log == old(buf.log) + DYNAMIC_GROUP_4
  {
    buf.Record(SetState(ColorBlendEnable(0, true)));
    buf.Record(SetState(ColorWriteMask(0, {R, G, B, A})));
    buf.Record(SetState(ColorBlendEquation(0, BlendEquation(One, Zero, Add, Zero, Zero, Add))));
  }

  /** Replaying three commands applies them in order. */
  lemma ReplayThree(s: DynamicState, a: Cmd, b: Cmd, c: Cmd)
    ensures ReplayFrom(s, [a, b, c]) == Step(Step(Step(s, a), b), c)
  {
    assert [a][..0] == [];
    assert ReplayFrom(s, [a]) == Step(s, a);
    assert [a, b][..1] == [a];
    assert ReplayFrom(s, [a, b]) == Step(ReplayFrom(s, [a]), b);
    assert [a, b, c][..2] == [a, b];
  }

  /** Replaying six commands replays the first three and then the last three. */
  lemma ReplaySix(s: DynamicState, a: Cmd, b: Cmd, c: Cmd, d: Cmd, e: Cmd, f: Cmd)
    ensures ReplayFrom(s, [a, b, c, d, e, f]) == ReplayFrom(ReplayFrom(s, [a, b, c]), [d, e, f])
  {
    assert [a, b, c, d, e, f] == [a, b, c] + [d, e, f];
    ReplayAppend(s, [a, b, c], [d, e, f]);
  }

  lemma Group1Effect(s: DynamicState)
    ensures ReplayFrom(s, DYNAMIC_GROUP_1) == Group1(s)
  {
    ReplaySix(s,
      SetState(RasterizerDiscardEnable(false)),
      SetState(DepthTestEnable(false)),
      SetState(DepthWriteEnable(false)),
      SetState(DepthCompareOp(Always)),
      SetState(StencilTestEnable(false)),
      SetState(DepthClampEnable(false)));
    ReplayThree(s, SetState(RasterizerDiscardEnable(false)), SetState(DepthTestEnable(false)), SetState(DepthWriteEnable(false)));
    ReplayThree(ReplayFrom(s, [SetState(RasterizerDiscardEnable(false)), SetState(DepthTestEnable(false)), SetState(DepthWriteEnable(false))]),
      SetState(DepthCompareOp(Always)),
      SetState(StencilTestEnable(false)),
      SetState(DepthClampEnable(false)));
  }

  lemma Group2Effect(s: DynamicState)
    ensures ReplayFrom(s, DYNAMIC_GROUP_2) == Group2(s)
  {
    var a, b, c := SetState(DepthBiasEnable(false)), SetState(SetPolygonMode(Fill)), SetState(RasterizationSamples(1));
    var d, e, f := SetState(SampleMask(1, 1)), SetState(AlphaToCoverageEnable(false)), SetState(SetCullMode(CullNone));
    ReplaySix(s, a, b, c, d, e, f);
    Group2Head(s);
    Group2Tail(ReplayFrom(s, [a, b, c]));
  }

  /** The first three writes of the rasterizer group. */
  lemma Group2Head(s: DynamicState)
    ensures ReplayFrom(s, [SetState(DepthBiasEnable(false)), SetState(SetPolygonMode(Fill)), SetState(RasterizationSamples(1))])
      == s.(depthBias := Some(false), polygonMode := Some(Fill), samples := Some(1))
  {
    ReplayThree(s, SetState(DepthBiasEnable(false)), SetState(SetPolygonMode(Fill)), SetState(RasterizationSamples(1)));
  }

  /** The last three writes of the rasterizer group. */
  lemma Group2Tail(s: DynamicState)
    ensures ReplayFrom(s, [SetState(SampleMask(1, 1)), SetState(AlphaToCoverageEnable(false)), SetState(SetCullMode(CullNone))])
      == s.(sampleMask := Some(1), alphaToCoverage := Some(false), cullMode := Some(CullNone))
  {
    ReplayThree(s, SetState(SampleMask(1, 1)), SetState(AlphaToCoverageEnable(false)), SetState(SetCullMode(CullNone)));
  }

  lemma Group3Effect(s: DynamicState)
    ensures ReplayFrom(s, DYNAMIC_GROUP_3) == Group3(s)
  {
    ReplayThree(s,
      SetState(SetFrontFace(Clockwise)),
      SetState(PrimitiveTopology(TriangleList)),
      SetState(PrimitiveRestartEnable(false)));
  }

  lemma Group4Effect(s: DynamicState)
    ensures ReplayFrom(s, DYNAMIC_GROUP_4) == Group4(s)
  {
    ReplayThree(s,
      SetState(ColorBlendEnable(0, true)),
      SetState(ColorWriteMask(0, {R, G, B, A})),
      SetState(ColorBlendEquation(0, BlendEquation(One, Zero, Add, Zero, Zero, Add))));
  }

  /** Replaying the writes SetDynamicStates records gives exactly AfterSetDynamicStates:
      every state it touches takes the value written, the rest keep theirs. */
  lemma {:induction false} SetDynamicStatesEffect(s: DynamicState)
    ensures ReplayFrom(s, SET_DYNAMIC_STATES_CMDS) == AfterSetDynamicStates(s)
  {
    ReplayAppend(s, DYNAMIC_GROUP_1 + DYNAMIC_GROUP_2 + DYNAMIC_GROUP_3, DYNAMIC_GROUP_4);
    ReplayAppend(s, DYNAMIC_GROUP_1 + DYNAMIC_GROUP_2, DYNAMIC_GROUP_3);
    ReplayAppend(s, DYNAMIC_GROUP_1, DYNAMIC_GROUP_2);
    Group1Effect(s);
    Group2Effect(Group1(s));
    Group3Effect(Group2(Group1(s)));
    Group4Effect(Group3(Group2(Group1(s))));
  }
}
