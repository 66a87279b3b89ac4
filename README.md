# Entity transformer of the InvokeAI canvas, modelled in Dafny

This project models `CanvasEntityTransformer`, the part of the InvokeAI canvas
that moves, resizes and rotates a raster layer or a mask. It models:

- **Snapping rules.** The anchor drag bound snaps resize anchors to the stage
  pixel grid. The bound box check rejects rotations off the 45-degree steps
  while shift is held. The `transformend` handler rounds the position and
  rescales so the footprint is a whole number of pixels.
- **Interaction-mode decision table.** It chooses between `off`, `drag` and
  `all` from the pending flag, the pixel rect, the renderer's objects, the
  selection, the tool and the transform gesture. Each mode has its effects on
  the enable flags and on the visibility of the Konva nodes.
- **The transformer as a class.** Its fields are the node rect and pixel rect,
  the pending and transforming flags, the mode, the enable flags, the
  processing flag, and the proxy rect, outline rect and Konva transformer.
  Its methods follow the source one for one: the enable/disable helpers,
  `setInteractionMode`, `syncInteractionState`, `update`, `updatePosition`,
  `updateBbox`, the body of `calculateRect` and its worker callback,
  `requestRectCalculation`, `startTransform`, `applyTransform`,
  `stopTransform`, `resetScale` and the `transform`, `transformend`,
  `dragmove` and `dragend` handlers.

The transformer's collaborators are small classes:

- the store slice (`StateApi`): tool, selection, transforming-entity slot, and
  the store commands as a recorded list;
- the renderer (`EntityRenderer`): whether it has objects, whether it needs a
  pixel bbox, the object and buffer groups, and the recorded `rasterize` calls;
- the owning adapter (`EntityAdapter`): id, stored position, layer listening;
- the stage (`Stage`): the scaled outline padding.

JavaScript number semantics are written out in `js_math.dfy`:

- `Math.round` rounds halves toward +infinity.
- `%` is a truncated remainder that takes the dividend's sign.
- `Math.sign(0)` is 0.

Files:

- `wrappers.dfy`: `Option`.
- `js_math.dfy`: JavaScript number operations.
- `geometry.dfy`: coordinates, rects and worker extents.
- `snapping.dfy`: the pure snapping rules and their properties.
- `interaction.dfy`: the mode decision table and mode effects.
- `transformer.dfy`: the collaborators and the `CanvasEntityTransformer` class.

Behaviour worth knowing:

- `startTransform` overwrites the transforming-entity slot unconditionally.
  It has no "already transforming" or "empty entity" error path.
- Worker replies carry no generation token. `ReceiveExtents` applies any
  reply whenever it arrives, including one for an older request.
- The anchor snap moves a point that is already on the stage pixel grid when
  the stage position is not a whole number of stage pixels, so snapping
  twice can differ from snapping once (see Findings).
- `startTransform` sets mode `all` even while a rect calculation is pending.
  "Mode is off while pending" holds after `syncInteractionState`, not after
  `startTransform`.
- Width 200 with raw scale 1.5 gives target width 300 and snapped scale 1.5
  (300 / 200). See `Snapping.SnapTransformEndExamples`.
- Konva creates the proxy and outline rects visible. Right after
  construction the node visibility does not yet follow mode `off`.
  `ModeApplied` holds only after the first `setInteractionMode`.
- A rect calculation that finds no objects does not resync the mode. With an
  empty pixel rect and no objects, `updateBbox` does nothing at all.

## Model

| member | source | states |
|---|---|---|
| JsMath.Round | invokeai/frontend/web/src/features/controlLayers/konva/CanvasEntityTransformer.ts:184-185 | `Math.round` result is within half of its argument, ties going up |
| JsMath.Sign | invokeai/frontend/web/src/features/controlLayers/konva/CanvasEntityTransformer.ts:294-295 | `Math.sign` is 1, -1 or 0 exactly when its argument is positive, negative or zero |
| JsMath.Rem | invokeai/frontend/web/src/features/controlLayers/konva/CanvasEntityTransformer.ts:193-194 | the JavaScript remainder for a positive divisor lies strictly within one divisor of zero on the dividend's side, and dividend minus remainder is a whole multiple of the divisor |
| JsMath.RemZeroIffMultiple | invokeai/frontend/web/src/features/controlLayers/konva/CanvasEntityTransformer.ts:229 | the remainder is zero exactly when the dividend is a whole multiple of the divisor |
| JsMath.Abs | invokeai/frontend/web/src/features/controlLayers/konva/CanvasEntityTransformer.ts:229 | `Math.abs` is non-negative and is its argument or its negation |
| JsMath.AbsInt | invokeai/frontend/web/src/features/controlLayers/konva/CanvasEntityTransformer.ts:290-291 | `Math.abs` of a whole number is non-negative and is its argument or its negation |
| JsMath.MaxInt | invokeai/frontend/web/src/features/controlLayers/konva/CanvasEntityTransformer.ts:290-291 | `Math.max` is at least both arguments and is one of them |
| Snapping.SnapAxis | invokeai/frontend/web/src/features/controlLayers/konva/CanvasEntityTransformer.ts:184-199 | the snapped anchor coordinate lies on the stage pixel grid (stage position plus whole multiples of the stage scale) and, less the stage offset `stagePos % stageScale`, is within half a stage pixel of the raw coordinate (more than minus half, at most plus half) |
| Snapping.AnchorDragBound | invokeai/frontend/web/src/features/controlLayers/konva/CanvasEntityTransformer.ts:168-218 | the rotation handle passes the new position through unchanged; any other anchor lands on the stage pixel grid on both axes, and on each axis, less the stage offset, within half a stage pixel of the new position |
| Snapping.AnchorDragBoundExample | invokeai/frontend/web/src/features/controlLayers/konva/CanvasEntityTransformer.ts:168-218 | stage scale 2 at stage position (5, 3) snaps (123, 77) to (125, 79) |
| Snapping.AnchorSnapMovesGridPoint | invokeai/frontend/web/src/features/controlLayers/konva/CanvasEntityTransformer.ts:184-199 | the snap as written moves the grid point 125 to 127 (scale 2, stage x 5), so it is not idempotent |
| Snapping.SnapAxisToGrid | invokeai/frontend/web/src/features/controlLayers/konva/CanvasEntityTransformer.ts:184-199 | the intended snap lands on the stage pixel grid, more than minus half and at most plus half a stage pixel from the raw coordinate |
| Snapping.AnchorDragBoundToGrid | invokeai/frontend/web/src/features/controlLayers/konva/CanvasEntityTransformer.ts:168-218 | with the intended snap, the rotation handle passes through, any other anchor lands on the grid point within half a stage pixel on each axis, and an anchor already on the grid stays put |
| Snapping.SnapAxisToGridFixesGrid | invokeai/frontend/web/src/features/controlLayers/konva/CanvasEntityTransformer.ts:184-199 | the intended snap leaves every grid point where it is |
| Snapping.SnapAxisToGridIdempotent | invokeai/frontend/web/src/features/controlLayers/konva/CanvasEntityTransformer.ts:184-199 | snapping twice gives the same point as snapping once |
| Snapping.SnapAxisToGridNearest | invokeai/frontend/web/src/features/controlLayers/konva/CanvasEntityTransformer.ts:184-199 | the intended snap is at least as close to the raw coordinate as any grid point |
| Snapping.SnapAxesAgreeOnAlignedStage | invokeai/frontend/web/src/features/controlLayers/konva/CanvasEntityTransformer.ts:184-199 | when the stage position is a whole number of stage pixels, the written and intended snaps agree |
| Snapping.BoundBox | invokeai/frontend/web/src/features/controlLayers/konva/CanvasEntityTransformer.ts:219-235 | off the rotation handle or without shift the new box is accepted; rotating with shift, a rotation off the 45-degree steps keeps the old box (rejected, not clamped) and one on a step is accepted |
| Snapping.BoundBoxKeepsRotationStep | invokeai/frontend/web/src/features/controlLayers/konva/CanvasEntityTransformer.ts:219-235 | while rotating with shift held, a box on a 45-degree step stays on one |
| Snapping.TargetSize | invokeai/frontend/web/src/features/controlLayers/konva/CanvasEntityTransformer.ts:289-291 | the target size is at least one pixel and is the whole size nearest to the raw footprint's magnitude, or the 1-pixel minimum |
| Snapping.TargetSizeAtNegativeHalf | invokeai/frontend/web/src/features/controlLayers/konva/CanvasEntityTransformer.ts:289-291 | because rounding precedes the absolute value, a 2.5-pixel footprint snaps to 3 unflipped and to 2 flipped |
| Snapping.SnappedScale | invokeai/frontend/web/src/features/controlLayers/konva/CanvasEntityTransformer.ts:293-295 | size times snapped scale is the target size with the raw scale's sign, and the snapped scale has the raw scale's sign |
| Snapping.SnapTransformEnd | invokeai/frontend/web/src/features/controlLayers/konva/CanvasEntityTransformer.ts:274-295 | the snapped position is within half a pixel of the raw one; the target sizes and scales are those of TargetSize and SnappedScale |
| Snapping.AxisFootprint | invokeai/frontend/web/src/features/controlLayers/konva/CanvasEntityTransformer.ts:289-295 | for a nonzero raw scale the snapped footprint's magnitude is exactly the target size, at least one pixel; a zero raw scale gives a zero snapped scale |
| Snapping.SnappedFootprint | invokeai/frontend/web/src/features/controlLayers/konva/CanvasEntityTransformer.ts:274-309 | after `transformend` both footprints are whole pixel counts of at least one, nearest to the raw footprints, with each flip sign kept (unless a raw scale is exactly zero) |
| Snapping.SnapTransformEndExamples | invokeai/frontend/web/src/features/controlLayers/konva/CanvasEntityTransformer.ts:274-309 | 200x100 at scale (1.5, 2) snaps to 300x200 at the same scale; 50x50 at (-0.5, 0.01) snaps to 25x1 at (-0.5, 0.02) |
| Interaction.ResolveMode | invokeai/frontend/web/src/features/controlLayers/konva/CanvasEntityTransformer.ts:426-465 | off whenever the rect is pending or empty or there are no objects; drag exactly when interactable, selected, not transforming and under the move tool; all exactly when interactable, selected, transforming and not under the view tool |
| Interaction.ModeEffects | invokeai/frontend/web/src/features/controlLayers/konva/CanvasEntityTransformer.ts:578-593 | dragging is enabled exactly when the mode is not off, transforming exactly in all, the outline is shown exactly in drag; transforming implies dragging |
| Interaction.EmptyEntityIsOff | invokeai/frontend/web/src/features/controlLayers/konva/CanvasEntityTransformer.ts:429-434 | an entity with an empty pixel rect is off whatever the selection, tool and gesture |
| EntityTransformer.Placed | invokeai/frontend/web/src/features/controlLayers/konva/CanvasEntityTransformer.ts:414-419 | the proxy rect sits at the bbox offset from the entity position and has the bbox's size |
| EntityTransformer.Outlined | invokeai/frontend/web/src/features/controlLayers/konva/CanvasEntityTransformer.ts:407-413 | the outline rect surrounds the placed proxy rect by the padding on every side |
| EntityTransformer.GroupAt | invokeai/frontend/web/src/features/controlLayers/konva/CanvasEntityTransformer.ts:559-566 | a group's offset is the pixel rect's origin and its position less its offset is the entity position |
| EntityTransformer.DraggedPositionInvertsPlacement | invokeai/frontend/web/src/features/controlLayers/konva/CanvasEntityTransformer.ts:359-362 | the position `dragend` reports for a proxy placed at a position is that position, and placing at the reported position leaves the proxy where it is |
| EntityTransformer.DraggedPosition | invokeai/frontend/web/src/features/controlLayers/konva/CanvasEntityTransformer.ts:360-363 | placing the proxy at the reported position over the pixel rect puts it back exactly where it is |
| EntityTransformer.PixelRectFromExtents | invokeai/frontend/web/src/features/controlLayers/konva/CanvasEntityTransformer.ts:660-667 | the pixel rect spans from the rounded node origin plus the minimum extents to it plus the maximum extents, and has no area exactly when the extents are degenerate |
| EntityTransformer.EntityRenderer.Rasterize | invokeai/frontend/web/src/features/controlLayers/konva/CanvasEntityTransformer.ts:508 | the rasterize call is recorded with its rect |
| EntityTransformer.CanvasEntityTransformer.constructor | invokeai/frontend/web/src/features/controlLayers/konva/CanvasEntityTransformer.ts:48-242 | empty rects, pending, not transforming, mode off with both enables off, not processing, rects as Konva creates them, transformer hidden, deaf and detached |
| EntityTransformer.CanvasEntityTransformer.EnableTransform | invokeai/frontend/web/src/features/controlLayers/konva/CanvasEntityTransformer.ts:689-694 | transform enabled; transformer visible, listening and attached to the proxy rect |
| EntityTransformer.CanvasEntityTransformer.DisableTransform | invokeai/frontend/web/src/features/controlLayers/konva/CanvasEntityTransformer.ts:696-701 | transform disabled; transformer hidden, deaf and detached |
| EntityTransformer.CanvasEntityTransformer.EnableDrag | invokeai/frontend/web/src/features/controlLayers/konva/CanvasEntityTransformer.ts:703-707 | drag enabled; proxy rect visible and listening, otherwise unchanged |
| EntityTransformer.CanvasEntityTransformer.DisableDrag | invokeai/frontend/web/src/features/controlLayers/konva/CanvasEntityTransformer.ts:709-713 | drag disabled; proxy rect hidden and deaf, otherwise unchanged |
| EntityTransformer.CanvasEntityTransformer.ShowBboxOutline | invokeai/frontend/web/src/features/controlLayers/konva/CanvasEntityTransformer.ts:715-717 | the outline rect becomes visible, nothing else changes |
| EntityTransformer.CanvasEntityTransformer.HideBboxOutline | invokeai/frontend/web/src/features/controlLayers/konva/CanvasEntityTransformer.ts:719-721 | the outline rect becomes hidden, nothing else changes |
| EntityTransformer.CanvasEntityTransformer.SetInteractionMode | invokeai/frontend/web/src/features/controlLayers/konva/CanvasEntityTransformer.ts:578-593 | the mode is recorded and its effects hold (ModeApplied), so transforming is enabled only together with dragging; only visibility and listening of the proxy and outline change |
| EntityTransformer.CanvasEntityTransformer.SyncInteractionState | invokeai/frontend/web/src/features/controlLayers/konva/CanvasEntityTransformer.ts:426-465 | the mode is the one ResolveMode gives for the current inputs, the layer listens exactly when the mode is not off, and the mode's effects hold |
| EntityTransformer.CanvasEntityTransformer.Update | invokeai/frontend/web/src/features/controlLayers/konva/CanvasEntityTransformer.ts:403-420 | the proxy rect is placed over the bbox at the position and the outline surrounds it by the padding |
| EntityTransformer.CanvasEntityTransformer.UpdatePosition | invokeai/frontend/web/src/features/controlLayers/konva/CanvasEntityTransformer.ts:555-569 | both groups, the proxy and the outline are placed for the given position, or for the stored one when none is given |
| EntityTransformer.CanvasEntityTransformer.UpdateBbox | invokeai/frontend/web/src/features/controlLayers/konva/CanvasEntityTransformer.ts:595-626 | while pending only the mode is resynced; an empty pixel rect resets the entity exactly when the renderer still has objects (and then resyncs), otherwise changes nothing; a non-empty one resyncs and places proxy, outline and groups over it |
| EntityTransformer.CanvasEntityTransformer.CalculateRect | invokeai/frontend/web/src/features/controlLayers/konva/CanvasEntityTransformer.ts:628-656 | no objects gives empty rects, no need for a pixel bbox gives the client rect for both, and in both cases pending is cleared and the bbox applied; otherwise the client rect goes to the worker and nothing else changes |
| EntityTransformer.CanvasEntityTransformer.ReceiveExtents | invokeai/frontend/web/src/features/controlLayers/konva/CanvasEntityTransformer.ts:658-676 | extents set the node rect to the requested rect and the pixel rect from the extents, no extents give empty rects; pending is cleared and the bbox applied |
| EntityTransformer.CanvasEntityTransformer.RequestRectCalculation | invokeai/frontend/web/src/features/controlLayers/konva/CanvasEntityTransformer.ts:679-683 | pending is set, which turns the mode off, both enables off and the layer deaf |
| EntityTransformer.CanvasEntityTransformer.StartTransform | invokeai/frontend/web/src/features/controlLayers/konva/CanvasEntityTransformer.ts:487-499 | transforming, tool move, layer listening, mode all with both enables on, and the transforming slot holds this entity whatever it held before |
| EntityTransformer.CanvasEntityTransformer.ResetScale | invokeai/frontend/web/src/features/controlLayers/konva/CanvasEntityTransformer.ts:539-549 | object group, buffer group, outline and proxy get scale (1, 1) and rotation 0, nothing else changes |
| EntityTransformer.CanvasEntityTransformer.StopTransform | invokeai/frontend/web/src/features/controlLayers/konva/CanvasEntityTransformer.ts:517-532 | not transforming, slot cleared, not processing, mode resynced; the proxy is the old proxy with the resynced listening, scale and rotation reset and placed over the pixel rect at the stored position; the outline is the old outline with the resynced visibility, reset and surrounding it by the padding; both groups are reset and placed at the stored position; and the entity is reset exactly when the pixel rect is empty but objects remain |
| EntityTransformer.CanvasEntityTransformer.ApplyTransform | invokeai/frontend/web/src/features/controlLayers/konva/CanvasEntityTransformer.ts:504-511 | the relative rect is rasterized once; afterwards the rect is pending, the transform stopped, the mode off with both enables off and the layer deaf, no store command sent; the proxy (deaf) and outline (hidden) are reset and placed over the pixel rect at the stored position, as are both groups |
| EntityTransformer.CanvasEntityTransformer.OnTransform | invokeai/frontend/web/src/features/controlLayers/konva/CanvasEntityTransformer.ts:258-269 | the object group takes the proxy rect's position, scale and rotation |
| EntityTransformer.CanvasEntityTransformer.OnTransformEnd | invokeai/frontend/web/src/features/controlLayers/konva/CanvasEntityTransformer.ts:271-309 | proxy rect and object group receive the same snapped position and scales; the flip signs are kept and each footprint is exactly its target size unless the raw scale was zero |
| EntityTransformer.CanvasEntityTransformer.OnDragMove | invokeai/frontend/web/src/features/controlLayers/konva/CanvasEntityTransformer.ts:334-352 | the proxy position is rounded to whole pixels, the outline follows it less the padding, and the object group moves to it |
| EntityTransformer.CanvasEntityTransformer.OnDragEnd | invokeai/frontend/web/src/features/controlLayers/konva/CanvasEntityTransformer.ts:353-367 | while transforming no command is sent; otherwise exactly one position command is sent: proxy position less the pixel rect's origin |

## Left out

- Floating point: numbers are exact reals and integers, so binary rounding of JavaScript doubles is not modelled.
- Rotation units: the transformer works in radians with a step of pi/4. The model uses degrees with a step of 45, so "a whole number of steps" is an exact test.
- The 300 ms `debounce` of `calculateRect` is timing behaviour. `RequestRectCalculation` only sets the pending flag and resyncs. The debounced body is `CalculateRect`, a separate step.
- Worker and raster plumbing (`getCanvas`, `canvasToImageData`, `worker.requestBbox`): `CalculateRect` returns the request, and the worker's reply is the parameter of `ReceiveExtents`.
- `getClientRect` and `getRelativeRect` are Konva geometry queries. Their results are parameters of `CalculateRect` and `ApplyTransform`.
- The `await` of `rasterize` is an atomic recorded call. Nothing interleaves with it.
- `getScaledPixels` is opaque: the scaled outline padding is the stage's `outlinePadding` value. `OUTLINE_PADDING` itself is 0.
- Rendering and styling are not modelled: `syncScale`, `forceUpdate`, stroke widths, colours, anchor styling and hit functions, and `updatePreviewCanvas`.
- Lifecycle and diagnostics are not modelled: nanostores subscriptions, `destroy`, `repr`, logging, and the logging-only `transformstart` handler.
- Konva node attributes the logic never reads (`draggable`, names, strokes) are not modelled.
- Snapping.AnchorDragBound: requires a positive stage scale. Konva stage scales are positive; at zero the JavaScript code would divide by zero.
- EntityTransformer.CanvasEntityTransformer.OnTransformEnd: requires a positive proxy width and height. At zero the JavaScript code divides by zero and produces a non-finite scale, which the model does not represent.
- Snapping.SnapTransformEnd: states the target sizes and scales through `TargetSize` and `SnappedScale`. Their footprint properties are stated by `SnappedFootprint` rather than on the function itself.

## Findings

| source | as written | input that shows it | evidently intended | confidence | as-written member | corrected member |
|---|---|---|---|---|---|---|
| invokeai/frontend/web/src/features/controlLayers/konva/CanvasEntityTransformer.ts:184-199 | rounds `newPos / stageScale` before adding the stage offset `stagePos % stageScale`, so the result is the nearest multiple of the scale shifted by the offset | stage scale 2, stage x 5, anchor at the grid point 125: 125 / 2 rounds to 63, and 63 * 2 + 1 = 127, so a point already on the grid moves one stage pixel and re-snapping is not idempotent | snap to the nearest point of the stage pixel grid (remove the offset, round, add it back), which fixes grid points and is idempotent | medium, not executed | Snapping.AnchorSnapMovesGridPoint | Snapping.AnchorDragBoundToGrid |
