/** The render pass that draws debug lines.

    `Build` plays the pass descriptor: it creates the pipeline layout and the
    graphics pipeline on the device and hands back a `DrawDebugLines` instance.
    Each frame the render graph calls `Prepare` for a frame slot, which gathers
    every line into the pass's own buffer and uploads the per-slot data, and then
    `DrawInline` for the same slot, which records the bind and draw commands. At
    teardown `Dispose` destroys the pipeline and its layout.

    GPU objects are handles in the device ledger (module Ledger); the uniform and
    vertex buffer wrappers are modelled by one map per wrapper from frame slot to
    the value last written into that slot. */
module DebugLinesPass {
  import opened Ledger
  import opened DebugDrawing

  const U32_LIMIT: nat := 0x1_0000_0000

  newtype U32 = x: int | 0 <= x < 0x1_0000_0000

  /** The numeric cast `n as u32`: keeps the low 32 bits. */
  function AsU32(n: nat): (r: U32)
    ensures n < U32_LIMIT ==> r as int == n
    ensures n >= U32_LIMIT ==> r as int == n - U32_LIMIT * (n / U32_LIMIT)
  {
    (n % U32_LIMIT) as U32
  }

  // ----- Line style parameters -----

  /** Style parameters shared by all debug lines. */
  datatype DebugLinesParams = DebugLinesParams(lineWidth: real)

  /** The parameters used when none are configured: lines one pixel wide. */
  function DefaultParams(): (p: DebugLinesParams)
    ensures p.lineWidth == 1.0
  {
    DebugLinesParams(1.0)
  }

  /** The line width in effect: the configured one if any, else the default. */
  function LineWidth(params: Option<DebugLinesParams>): (w: real)
    ensures params.Some? ==> w == params.value.lineWidth
    ensures params.None? ==> w == 1.0
  {
    match params
    case Some(p) => p.lineWidth
    case None => DefaultParams().lineWidth
  }

  /** A division whose floating-point evaluation is left to the GPU side. */
  datatype Quotient = Quotient(numerator: real, denominator: real)

  function Value(q: Quotient): real
    requires q.denominator != 0.0
  {
    q.numerator / q.denominator
  }

  /** The line-style uniform: the screen-space half-thickness factors. */
  datatype DebugLinesArgs = DebugLinesArgs(thicknessX: Quotient, thicknessY: Quotient)

  /** Each framebuffer dimension divided by twice the line width. Both factors share
      one divisor, which is zero exactly when the line width is zero. */
  function ScreenSpaceThickness(framebufferWidth: real, framebufferHeight: real, lineWidth: real): (t: DebugLinesArgs)
    ensures t.thicknessX.numerator == framebufferWidth && t.thicknessY.numerator == framebufferHeight
    ensures t.thicknessX.denominator == t.thicknessY.denominator
    ensures t.thicknessX.denominator == 0.0 <==> lineWidth == 0.0
  {
    DebugLinesArgs(Quotient(framebufferWidth, lineWidth * 2.0), Quotient(framebufferHeight, lineWidth * 2.0))
  }

  /** Two-pixel lines on an 800 by 600 framebuffer give the factors (200, 150). */
  lemma ThicknessOfTwoPixelLines()
    ensures var args := ScreenSpaceThickness(800.0, 600.0, LineWidth(Some(DebugLinesParams(2.0))));
            && args.thicknessX.denominator != 0.0 && args.thicknessY.denominator != 0.0
            && Value(args.thicknessX) == 200.0 && Value(args.thicknessY) == 150.0
  {
  }

  // ----- Command recording -----

  /** A column-major view-projection matrix, as gathered from the active camera. */
  type Matrix = seq<real>

  /** The two uniform buffer wrappers of the pass. */
  datatype Uniform = Env | Args

  /** A half-open range `start..end`. */
  datatype Range = Range(start: nat, end: nat)

  datatype Command =
    | BindGraphicsPipeline(pipeline: Handle)
    | BindDescriptorSet(layout: Handle, descriptor: nat, uniform: Uniform, frame: nat)
    | BindVertexBuffer(binding: nat, frame: nat)
    | Draw(vertices: Range, instances: Range)

  /** The render-pass encoder: the commands recorded so far. */
  class RenderPassEncoder {
    var commands: seq<Command>

    constructor ()
      ensures commands == []
    {
      commands := [];
    }
  }

  // ----- The pass instance -----

  class DrawDebugLines {
    const pipeline: Handle
    const pipelineLayout: Handle
    /** The descriptor-set layouts of the camera uniform (`env`) and of the line-style uniform (`args`). */
    const envLayout: Handle
    const argsLayout: Handle
    const framebufferWidth: real
    const framebufferHeight: real
    /** Per frame slot, the value last written into the camera uniform. */
    var envSlots: map<nat, Matrix>
    /** Per frame slot, the value last written into the line-style uniform. */
    var argsSlots: map<nat, DebugLinesArgs>
    /** Per frame slot, the lines last written into the vertex buffer. */
    var vertexSlots: map<nat, seq<Line>>
    /** The lines gathered by the most recent `Prepare`. */
    var lines: seq<Line>

    constructor (pipeline: Handle, pipelineLayout: Handle, envLayout: Handle, argsLayout: Handle,
                 framebufferWidth: U32, framebufferHeight: U32)
      ensures this.pipeline == pipeline && this.pipelineLayout == pipelineLayout
      ensures this.envLayout == envLayout && this.argsLayout == argsLayout
      ensures this.framebufferWidth == framebufferWidth as real
      ensures this.framebufferHeight == framebufferHeight as real
      ensures envSlots == map[] && argsSlots == map[] && vertexSlots == map[]
      ensures lines == []
    {
      this.pipeline := pipeline;
      this.pipelineLayout := pipelineLayout;
      this.envLayout := envLayout;
      this.argsLayout := argsLayout;
      this.framebufferWidth := framebufferWidth as real;
      this.framebufferHeight := framebufferHeight as real;
      envSlots := map[];
      argsSlots := map[];
      vertexSlots := map[];
      lines := [];
    }

    /** The pipeline and its layout are alive on `device`: the pass still owns them. */
    ghost predicate Holds(device: Device)
      reads device
    {
      && pipeline.kind == GraphicsPipeline && pipelineLayout.kind == PipelineLayout
      && pipeline in device.live && pipelineLayout in device.live
    }

    /** Gathers this frame's lines and uploads the data of frame slot `index`.
        `components` are the entities' line components in storage order, `pool` the
        global line pool if present, `params` the style parameters if present and
        `projview` the camera's view-projection matrix. Returns whether the number
        of lines changed since the previous call. */
    method Prepare(index: nat, components: seq<DebugLinesComponent>, pool: DebugLines?,
                   params: Option<DebugLinesParams>, projview: Matrix)
      returns (changed: bool)
      modifies this, pool
      ensures pool == null ==> lines == Concat(components)
      ensures pool != null ==> lines == Concat(components) + old(pool.lines) && pool.lines == []
      ensures changed <==> |lines| != old(|lines|)
      ensures envSlots == old(envSlots)[index := projview]
      ensures argsSlots == old(argsSlots)[index := ScreenSpaceThickness(framebufferWidth, framebufferHeight, LineWidth(params))]
      ensures vertexSlots == old(vertexSlots)[index := lines]
    {
      var oldLen := |lines|;
      lines := [];
      var i := 0;
      while i < |components|
        invariant 0 <= i <= |components|
        invariant lines == Concat(components[..i])
        invariant envSlots == old(envSlots) && argsSlots == old(argsSlots) && vertexSlots == old(vertexSlots)
        invariant pool != null ==> pool.lines == old(pool.lines)
      {
        assert components[..i + 1] == components[..i] + [components[i]];
        ConcatAppend(components[..i], [components[i]]);
        lines := lines + components[i].lines;
        i := i + 1;
      }
      assert components[..i] == components;
      if pool != null {
        var drained := pool.Drain();
        lines := lines + drained;
      }
      var lineWidth := LineWidth(params);
      envSlots := envSlots[index := projview];
      argsSlots := argsSlots[index := ScreenSpaceThickness(framebufferWidth, framebufferHeight, lineWidth)];
      vertexSlots := vertexSlots[index := lines];
      changed := oldLen != |lines|;
    }

    /** Records the commands that draw the lines of frame slot `index`: one
        four-vertex strip per line, as many instances as there are lines. */
    method DrawInline(encoder: RenderPassEncoder, index: nat)
      modifies encoder
      ensures encoder.commands == old(encoder.commands) + [
                BindGraphicsPipeline(pipeline),
                BindDescriptorSet(pipelineLayout, 0, Env, index),
                BindDescriptorSet(pipelineLayout, 1, Args, index),
                BindVertexBuffer(0, index),
                Draw(Range(0, 4), Range(0, AsU32(|lines|) as nat))]
      ensures |lines| < U32_LIMIT ==> encoder.commands[|encoder.commands| - 1].instances == Range(0, |lines|)
      ensures lines == old(lines)
    {
      var layout := pipelineLayout;
      encoder.commands := encoder.commands + [BindGraphicsPipeline(pipeline)];
      encoder.commands := encoder.commands + [BindDescriptorSet(layout, 0, Env, index)];
      encoder.commands := encoder.commands + [BindDescriptorSet(layout, 1, Args, index)];
      encoder.commands := encoder.commands + [BindVertexBuffer(0, index)];
      encoder.commands := encoder.commands + [Draw(Range(0, 4), Range(0, AsU32(|lines|) as nat))];
    }

    /** Destroys the pipeline, then its layout. Afterwards the pass owns nothing. */
    method Dispose(device: Device)
      requires device.Valid() && Holds(device)
      modifies device
      ensures device.Valid()
      ensures device.history == old(device.history) + [Destroyed(pipeline), Destroyed(pipelineLayout)]
      ensures device.live == old(device.live) - {pipeline, pipelineLayout}
      ensures !Holds(device)
    {
      device.DestroyGraphicsPipeline(pipeline);
      device.DestroyPipelineLayout(pipelineLayout);
    }
  }

  // ----- Construction -----

  /** Which of the two fallible device calls of the pipeline construction fail, and how. */
  datatype Faults = Faults(layout: Option<Error>, pipelines: Option<Error>)

  /** What the pipeline construction does to the device once the layout exists:
      create the layout and both shader modules, the pipeline if its build
      succeeds, destroy both shader modules, and on failure destroy the layout too. */
  ghost function PipelineBuildEvents(setLayouts: seq<Handle>, layout: Handle, vertex: Handle, fragment: Handle,
                                     pipeline: Option<Handle>): seq<Event>
  {
    [Created(layout, setLayouts), Created(vertex, []), Created(fragment, [])]
    + (if pipeline.Some? then [Created(pipeline.value, [layout, vertex, fragment])] else [])
    + [Destroyed(vertex), Destroyed(fragment)]
    + (if pipeline.None? then [Destroyed(layout)] else [])
  }

  /** Replaying the construction leaves exactly the pipeline and its layout alive
      on success, and nothing new on failure. */
  lemma PipelineBuildLeavesNoLeak(live: set<Handle>, setLayouts: seq<Handle>, layout: Handle, vertex: Handle,
                                  fragment: Handle, pipeline: Option<Handle>)
    requires layout !in live && vertex !in live && fragment !in live
    requires layout != vertex && layout != fragment && vertex != fragment
    requires pipeline.Some? ==> pipeline.value !in live && pipeline.value !in {layout, vertex, fragment}
    ensures Apply(live, PipelineBuildEvents(setLayouts, layout, vertex, fragment, pipeline)) ==
            if pipeline.Some? then live + {layout, pipeline.value} else live
  {
    var events := PipelineBuildEvents(setLayouts, layout, vertex, fragment, pipeline);
    var e0 := [Created(layout, setLayouts)];
    var e1 := e0 + [Created(vertex, [])];
    var e2 := e1 + [Created(fragment, [])];
    var e3 := if pipeline.Some? then e2 + [Created(pipeline.value, [layout, vertex, fragment])] else e2;
    var e4 := e3 + [Destroyed(vertex)];
    var e5 := e4 + [Destroyed(fragment)];
    var e6 := if pipeline.None? then e5 + [Destroyed(layout)] else e5;
    assert events == e6;
    ApplySnoc(live, [], Created(layout, setLayouts));
    ApplySnoc(live, e0, Created(vertex, []));
    ApplySnoc(live, e1, Created(fragment, []));
    assert Apply(live, e2) == live + {layout, vertex, fragment};
    if pipeline.Some? {
      ApplySnoc(live, e2, Created(pipeline.value, [layout, vertex, fragment]));
    }
    ApplySnoc(live, e3, Destroyed(vertex));
    ApplySnoc(live, e4, Destroyed(fragment));
    if pipeline.None? {
      ApplySnoc(live, e5, Destroyed(layout));
    }
  }

  /** The device history of a construction, call by call, is the fragment above. */
  lemma BuildHistory(h0: seq<Event>, setLayouts: seq<Handle>, layout: Handle, vertex: Handle, fragment: Handle,
                     pipeline: Option<Handle>, h4: seq<Event>, h6: seq<Event>, h7: seq<Event>)
    requires h4 == h0 + [Created(layout, setLayouts)] + [Created(vertex, [])] + [Created(fragment, [])]
                  + (if pipeline.Some? then [Created(pipeline.value, [layout, vertex, fragment])] else [])
    requires h6 == h4 + [Destroyed(vertex)] + [Destroyed(fragment)]
    requires h7 == if pipeline.None? then h6 + [Destroyed(layout)] else h6
    ensures h7 == h0 + PipelineBuildEvents(setLayouts, layout, vertex, fragment, pipeline)
  {
  }

  /** Creates the pipeline layout over `setLayouts`, the two shader modules and the
      graphics pipeline, then destroys the shader modules. If the pipeline build
      fails the layout is destroyed as well and the build's error is returned; on
      success the pipeline and the layout are returned. The ghost results name the
      layout and shader modules that were created. */
  method BuildLinesPipeline(device: Device, setLayouts: seq<Handle>, faults: Faults)
    returns (r: Result<(Handle, Handle)>, ghost layout: Handle, ghost vertex: Handle, ghost fragment: Handle)
    requires device.Valid()
    modifies device
    ensures device.Valid()
    ensures r.Ok? <==> faults.layout.None? && faults.pipelines.None?
    ensures faults.layout.Some? ==>
              r == Err(faults.layout.value) && device.history == old(device.history)
    ensures faults.layout.None? && faults.pipelines.Some? ==> r == Err(faults.pipelines.value)
    ensures faults.layout.None? ==>
              && layout.kind == PipelineLayout && vertex.kind == ShaderModule && fragment.kind == ShaderModule
              && layout !in old(device.live) && vertex !in old(device.live) && fragment !in old(device.live)
              && vertex != fragment
              && device.history == old(device.history) +
                   PipelineBuildEvents(setLayouts, layout, vertex, fragment, if r.Ok? then Some(r.value.0) else None)
              && device.live == Apply(old(device.live),
                   PipelineBuildEvents(setLayouts, layout, vertex, fragment, if r.Ok? then Some(r.value.0) else None))
    ensures r.Err? ==> device.live == old(device.live)
    ensures r.Ok? ==>
              && r.value.0.kind == GraphicsPipeline && r.value.1 == layout
              && r.value.0 !in old(device.live) && r.value.1 !in old(device.live)
              && device.live == old(device.live) + {r.value.0, r.value.1}
  {
    // The ghost results name objects only once the layout has been created.
    layout, vertex, fragment := Handle(PipelineLayout, 0), Handle(ShaderModule, 0), Handle(ShaderModule, 0);
    ghost var h0 := device.history;
    var created := device.CreatePipelineLayout(setLayouts, faults.layout);
    if created.Err? {
      r := Err(created.error);
      return;
    }
    var pipelineLayout := created.value;
    layout := pipelineLayout;

    var shaderVertex := device.CreateShaderModule();
    var shaderFragment := device.CreateShaderModule();
    vertex, fragment := shaderVertex, shaderFragment;

    var pipes := device.BuildGraphicsPipeline(pipelineLayout, shaderVertex, shaderFragment, faults.pipelines);
    ghost var built := if pipes.Ok? then Some(pipes.value) else None;
    ghost var h4 := device.history;

    device.DestroyShaderModule(shaderVertex);
    device.DestroyShaderModule(shaderFragment);
    ghost var h6 := device.history;

    match pipes {
      case Err(e) =>
        device.DestroyPipelineLayout(pipelineLayout);
        r := Err(e);
      case Ok(pipeline) =>
        r := Ok((pipeline, pipelineLayout));
    }

    assert built == if r.Ok? then Some(r.value.0) else None;
    BuildHistory(h0, setLayouts, layout, vertex, fragment, built, h4, h6, device.history);
    PipelineBuildLeavesNoLeak(old(device.live), setLayouts, layout, vertex, fragment, built);
  }

  /** Builds the pass: `env` and `args` are the outcomes of creating the camera and
      line-style uniform wrappers (their descriptor-set layout, or the error), and
      `faults` those of the pipeline construction. The pipeline layout is built over
      the two descriptor-set layouts, camera first. */
  method Build(device: Device, framebufferWidth: U32, framebufferHeight: U32,
               env: Result<Handle>, args: Result<Handle>, faults: Faults)
    returns (r: Result<DrawDebugLines>)
    requires device.Valid()
    requires env.Ok? ==> env.value.kind == DescriptorSetLayout
    requires args.Ok? ==> args.value.kind == DescriptorSetLayout
    modifies device
    ensures device.Valid()
    ensures r.Ok? <==> env.Ok? && args.Ok? && faults.layout.None? && faults.pipelines.None?
    ensures env.Err? ==> r == Err(env.error) && device.history == old(device.history)
    ensures env.Ok? && args.Err? ==> r == Err(args.error) && device.history == old(device.history)
    ensures env.Ok? && args.Ok? && faults.layout.Some? ==> r == Err(faults.layout.value)
    ensures env.Ok? && args.Ok? && faults.layout.None? && faults.pipelines.Some? ==>
              r == Err(faults.pipelines.value)
    ensures r.Err? ==> device.live == old(device.live)
    ensures r.Ok? ==>
              && fresh(r.value) && r.value.Holds(device)
              && r.value.lines == []
              && r.value.envSlots == map[] && r.value.argsSlots == map[] && r.value.vertexSlots == map[]
              && r.value.envLayout == env.value && r.value.argsLayout == args.value
              && r.value.framebufferWidth == framebufferWidth as real
              && r.value.framebufferHeight == framebufferHeight as real
              && Created(r.value.pipelineLayout, [env.value, args.value]) in device.history
              && r.value.pipeline !in old(device.live) && r.value.pipelineLayout !in old(device.live)
              && device.live == old(device.live) + {r.value.pipeline, r.value.pipelineLayout}
  {
    if env.Err? {
      return Err(env.error);
    }
    if args.Err? {
      return Err(args.error);
    }
    var built, layout, vertex, fragment := BuildLinesPipeline(device, [env.value, args.value], faults);
    if built.Err? {
      return Err(built.error);
    }
    var (pipeline, pipelineLayout) := built.value;
    assert Created(layout, [env.value, args.value]) in device.history;
    var pass := new DrawDebugLines(pipeline, pipelineLayout, env.value, args.value,
                                   framebufferWidth, framebufferHeight);
    r := Ok(pass);
  }

  /** One lifetime of the pass as the render graph drives it: build, one frame of
      prepare and draw on slot 0, dispose. Whatever fails, the device ends with
      the same live objects it started with. */
  method Lifecycle(device: Device, framebufferWidth: U32, framebufferHeight: U32,
                   env: Result<Handle>, args: Result<Handle>, faults: Faults,
                   components: seq<DebugLinesComponent>, pool: DebugLines?,
                   params: Option<DebugLinesParams>, projview: Matrix, encoder: RenderPassEncoder)
    requires device.Valid()
    requires env.Ok? ==> env.value.kind == DescriptorSetLayout
    requires args.Ok? ==> args.value.kind == DescriptorSetLayout
    modifies device, pool, encoder
    ensures device.Valid()
    ensures device.live == old(device.live)
  {
    var built := Build(device, framebufferWidth, framebufferHeight, env, args, faults);
    if built.Ok? {
      var pass := built.value;
      var _ := pass.Prepare(0, components, pool, params, projview);
      pass.DrawInline(encoder, 0);
      pass.Dispose(device);
    }
  }

  /** Change detection compares counts only: two frames with one line each report
      no change even when the lines differ. */
  method SameCountReportsNoChange(pass: DrawDebugLines, index: nat, first: Line, second: Line)
    returns (changed: bool)
    modifies pass
    ensures !changed
    ensures pass.lines == [second] && index in pass.vertexSlots && pass.vertexSlots[index] == [second]
  {
    var _ := pass.Prepare(index, [DebugLinesComponent([first])], null, None, []);
    changed := pass.Prepare(index, [DebugLinesComponent([second])], null, None, []);
  }
}
