# Debug-lines render pass (amethyst_rendy)

A Dafny model of the render pass that draws debug lines in amethyst's renderer
(`amethyst_rendy/src/pass/debug_lines.rs`), with its contracts proved.

The pass has two parts:

- The **pass descriptor** (`DrawDebugLinesDesc::build`, modelled by `Build`). It
  builds a pipeline layout over the descriptor-set layouts of the camera uniform
  (`env`) and the line-style uniform (`args`), in that order. It loads the vertex
  and fragment shader modules and builds the graphics pipeline
  (`build_lines_pipeline`, modelled by `BuildLinesPipeline`). It returns a pass
  instance with an empty line buffer.
- The **pass instance** (`DrawDebugLines`), a class. Each frame, `Prepare` does
  the following:
  - clears the line buffer;
  - appends every `DebugLinesComponent`'s lines in storage order;
  - drains the global `DebugLines` pool, if it exists, into the buffer;
  - writes the camera matrix, the screen-space thickness and the lines into
    frame slot `index`;
  - reports whether the number of lines changed.

  `DrawInline` records the binds and one instanced draw for slot `index`.
  `Dispose` destroys the pipeline and then its layout.

GPU objects are opaque handles in a device ledger (module `Ledger`). The ledger
is a class holding the set of live handles and a ghost history of every
creation and destruction. Its invariant is that the live set is what replaying
the history gives. A fallible device call takes the failure it should report as
a parameter (`Option<Error>`); this is how "pipeline creation may fail" is
modelled. The uniform and vertex buffer wrappers are modelled as one map per
wrapper, from frame slot to the value last written into that slot. The ECS
inputs of `prepare` become parameters:
- the joined components, in storage order;
- the pool, as a nullable object;
- the style parameters, as an `Option`;
- the camera's view-projection matrix.

Main results:
- `BuildLinesPipeline` always destroys both shader modules. On failure it also
  destroys the layout and leaves the live set exactly as it found it. On
  success exactly the returned pipeline and layout are added to the live set.
  The device history it records is spelled out event by event, and
  `PipelineBuildLeavesNoLeak` shows that replaying that history gives the same
  net effect.
- `Lifecycle` (build, one prepare and draw, dispose) leaves the device with the
  live objects it started with, whatever fails.
- `Prepare` leaves the buffer equal to the concatenation of the components'
  lines followed by the pool's former contents, and leaves the pool empty.
  `changed` compares lengths only.

Four behaviours of the code that are easy to misread, which the model keeps as
written:
- The instance count is `lines.len() as u32`, so it equals the line count only
  below 2^32 lines. Above that it wraps (`AsU32`).
- A failure to create a shader module panics (`unwrap`). It is not returned as a
  construction error, so the model has no error path for it.
- `changed` compares the new length with the length left by the previous
  `prepare` call for any frame slot, not for the same slot.
- `draw_inline(index)` draws as many instances as the most recent `prepare`
  left lines, whichever slot that `prepare` wrote, while the vertex buffer it
  binds is slot `index`'s. `DrawInline` likewise uses the current buffer length.

## Model

| member | source | states |
|---|---|---|
| `DebugLinesPass.DefaultParams` | amethyst_rendy/src/pass/debug_lines.rs:38-42 | The default style parameters have a line width of 1.0 pixel. |
| `DebugLinesPass.LineWidth` | amethyst_rendy/src/pass/debug_lines.rs:149-151 | The width used is the configured `line_width` when parameters are present, else 1.0. |
| `DebugLinesPass.ScreenSpaceThickness` | amethyst_rendy/src/pass/debug_lines.rs:157-163 | The two thickness factors have the framebuffer width and height as numerators and share one divisor, which is zero exactly when the line width is zero. |
| `DebugLinesPass.ThicknessOfTwoPixelLines` | amethyst_rendy/src/pass/debug_lines.rs:158-161 | Two-pixel lines on an 800x600 framebuffer give the thickness factors (200, 150). |
| `DebugLinesPass.AsU32` | amethyst_rendy/src/pass/debug_lines.rs:193 | The `as u32` cast is the identity below 2^32 and otherwise keeps the value modulo 2^32. |
| `DebugDrawing.ConcatAppend` | amethyst_rendy/src/pass/debug_lines.rs:140-142 | Collecting the lines of two runs of components is collecting each run and joining the results. |
| `DebugDrawing.ConcatPlacesComponent` | amethyst_rendy/src/pass/debug_lines.rs:140-142 | Component k's lines appear whole and in order, after the lines of every earlier component and before those of every later one. |
| `DebugDrawing.DebugLines.Drain` | amethyst_rendy/src/pass/debug_lines.rs:145 | Draining returns the pool's former contents in order and leaves the pool empty. |
| `DebugLinesPass.DrawDebugLines.Prepare` | amethyst_rendy/src/pass/debug_lines.rs:121-176 | The buffer becomes the components' lines in join order, then the pool's former contents (or only the components' lines without a pool), and nothing from the previous frame survives. The pool is left empty. Slot `index` of the vertex, camera and line-style stores receives the lines, the matrix and the thickness for the resolved width. Every other slot is unchanged. `changed` holds iff the line count differs from the previous one. |
| `DebugLinesPass.SameCountReportsNoChange` | amethyst_rendy/src/pass/debug_lines.rs:174 | Two successive frames with one line each report no change even when the lines differ. |
| `DebugLinesPass.DrawDebugLines.DrawInline` | amethyst_rendy/src/pass/debug_lines.rs:188-193 | Records exactly five commands, in this order: bind the pipeline, bind env at descriptor 0, bind args at descriptor 1, bind the vertex buffer at binding 0 (all for `index`), then draw vertices 0..4 with instances 0..`lines.len() as u32`. The instance count equals the line count below 2^32. The buffer is unchanged. |
| `DebugLinesPass.DrawDebugLines.Dispose` | amethyst_rendy/src/pass/debug_lines.rs:196-203 | Destroys the pipeline, then the layout (in that order in the history). Neither is live afterwards, so the pass owns nothing and cannot be disposed again. |
| `DebugLinesPass.DrawDebugLines.constructor` | amethyst_rendy/src/pass/debug_lines.rs:91-102 | A new pass has an empty line buffer and empty slot stores. It stores the framebuffer size as reals and keeps the given pipeline, layout and uniform layouts. |
| `DebugLinesPass.BuildLinesPipeline` | amethyst_rendy/src/pass/debug_lines.rs:206-259 | Returns the layout error, or the pipeline-build error, or the pipeline with its live layout. On every path where the layout was created, the history is: layout, vertex module, fragment module, [pipeline], destroy vertex, destroy fragment, [destroy layout on failure]. No object it created is live on failure. On success exactly the returned pipeline and layout are added, and both are fresh. |
| `DebugLinesPass.PipelineBuildLeavesNoLeak` | amethyst_rendy/src/pass/debug_lines.rs:245-258 | Replaying the construction's history on any live set adds exactly the layout and pipeline on success and nothing on failure. |
| `DebugLinesPass.Build` | amethyst_rendy/src/pass/debug_lines.rs:64-103 | Given descriptor-set layouts for the two uniforms, fails with the first error among: env uniform, args uniform, layout, pipeline build. The device's live set is then unchanged. On success it returns a fresh pass with an empty buffer and empty slot stores, holding a fresh live pipeline and layout, whose layout was created over `[env, args]` in that order. |
| `DebugLinesPass.Lifecycle` | amethyst_rendy/src/pass/debug_lines.rs:64-203 | A client of the pass's four hooks (build, prepare, draw_inline, dispose), not a function of the source: building, one prepare and draw, then disposing leave the device with exactly the live objects it had before, on every failure path and on success. |
| `Ledger.Device.CreatePipelineLayout` | amethyst_rendy/src/pass/debug_lines.rs:213-217 | Either returns the injected error and changes nothing, or creates one fresh live layout recorded with the descriptor-set layouts it was built from. |
| `Ledger.Device.CreateShaderModule` | amethyst_rendy/src/pass/debug_lines.rs:219-220 | Creates one fresh live shader module. |
| `Ledger.Device.BuildGraphicsPipeline` | amethyst_rendy/src/pass/debug_lines.rs:222-243 | Over a live layout and two live shader modules, either returns the injected error and changes nothing, or creates one fresh live pipeline recorded as built from them. |
| `Ledger.Device.DestroyShaderModule` | amethyst_rendy/src/pass/debug_lines.rs:245-248 | Requires a live shader module and removes it from the live set, recording the destruction. |
| `Ledger.Device.DestroyPipelineLayout` | amethyst_rendy/src/pass/debug_lines.rs:252-254 | Requires a live layout and removes it from the live set, recording the destruction. |
| `Ledger.Device.DestroyGraphicsPipeline` | amethyst_rendy/src/pass/debug_lines.rs:198 | Requires a live pipeline and removes it from the live set, recording the destruction. |

## Left out

- GPU work itself (`create_pipeline_layout`, `PipelinesBuilder::build`, the `destroy_*` calls, encoder binding) is reduced to handles in the ledger and to a list of recorded commands. Objects are not actually created, bound or drawn.
- The pipeline description is not modelled because it configures a builder that is not part of this model and carries no behaviour of the pass. That covers the vertex layout, triangle strip, alpha blending, the less-or-equal depth test and the viewport size.
- `DynamicUniform` and `DynamicVertex` are reduced to per-slot maps:
  - buffer allocation and growth are not modelled;
  - the std140 layout is not modelled;
  - the descriptor-set layouts those wrappers create are inputs, not ledger entries, because the wrappers release them themselves.
- If creating `args` fails after `env` was created, `env` is dropped by Rust's ownership. That release is not modelled.
- `ScreenSpaceThickness`: the contract does not fix the divisor as twice the line width; that value comes from the function's body, and `ThicknessOfTwoPixelLines` checks it on the 800x600 example. Each thickness factor is kept as an unevaluated quotient of reals. `f32` rounding, the `u32 as f32` cast of the framebuffer size and the infinities produced by a zero line width are not modelled.
- `util::ChangeDetection::prepare_result` is not part of this model. `Prepare` returns the `changed` flag passed to it, and the per-slot change state is not modelled.
- The ECS `fetch` and `join`, `CameraGatherer::gather` and the numeric-precision type parameter become inputs: the component order, the pool, the parameters and the matrix.
- Panics (`unwrap` on shader module creation) and profiler scopes are not modelled.
- `DrawDebugLinesDesc::new` is not modelled because it only builds a marker value.
- The contents of `DebugLine`, `DebugLinesComponent` and `DebugLines` (in `debug_drawing`) are reduced to what the pass reads. `debug_drawing` is not part of this model beyond that.
- The vertex-buffer write receives `lines.len() as u64` as its count. That cast is lossless on the 64-bit targets assumed here, so the slot simply receives `lines`.
- `DrawDebugLines.Dispose`: `dispose` takes the pass by `Box<Self>` and consumes it, so nothing can run after it. The model only stops a second `Dispose` (the pipeline and layout are no longer live); a `DrawInline` after `Dispose` would still record a bind of the destroyed pipeline.
