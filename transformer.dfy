/**
 * The entity transformer as a stateful object: the bbox pair and its pending
 * flag, the transform-gesture flag, the interaction mode with its enable
 * flags, and the Konva nodes it positions (proxy rect, outline rect,
 * transformer) together with the collaborators it writes to (the entity's
 * layer, the renderer's object and buffer groups, the application store).
 */
module EntityTransformer {
  import opened Wrappers
  import opened JsMath
  import opened Geometry
  import opened Snapping
  import opened Interaction

  type EntityId = string

  /** The attributes of a Konva node that the transformer reads or writes. */
  datatype NodeAttrs = NodeAttrs(x: real, y: real, width: real, height: real,
                                 scaleX: real, scaleY: real, rotation: real,
                                 offsetX: real, offsetY: real,
                                 visible: bool, listening: bool)

  /** A Konva rect as created: at the origin, unscaled, unrotated, visible. */
  function NewRect(listening: bool): NodeAttrs {
    NodeAttrs(0.0, 0.0, 0.0, 0.0, 1.0, 1.0, 0.0, 0.0, 0.0, true, listening)
  }

  /** The Konva transformer: visible, listening, and whether the proxy rect is attached (`nodes([proxyRect])`). */
  datatype TransformerAttrs = TransformerAttrs(visible: bool, listening: bool, attached: bool)

  /** The commands the transformer sends to the application store. */
  datatype StoreCommand =
    | SetEntityPosition(entity: EntityId, position: Coordinate)
    | ResetEntity(entity: EntityId)

  // ---------------------------------------------------------------------------
  // Node attribute updates

  function WithListening(n: NodeAttrs, on: bool): NodeAttrs {
    n.(visible := on, listening := on)
  }

  function WithVisible(n: NodeAttrs, on: bool): NodeAttrs {
    n.(visible := on)
  }

  /** The scale and rotation that `resetScale` restores. */
  function Unscaled(n: NodeAttrs): NodeAttrs {
    n.(scaleX := 1.0, scaleY := 1.0, rotation := 0.0)
  }

  /** The proxy rect placed over `bbox` for an entity at `position`. */
  function Placed(n: NodeAttrs, position: Coordinate, bbox: Rect): (r: NodeAttrs)
    ensures r.x - position.x == bbox.x && r.y - position.y == bbox.y
    ensures r.width == bbox.width && r.height == bbox.height
  {
    n.(x := position.x + bbox.x, y := position.y + bbox.y, width := bbox.width, height := bbox.height)
  }

  /** The outline rect: the placed proxy grown by `pad` on every side. */
  function Outlined(n: NodeAttrs, position: Coordinate, bbox: Rect, pad: real): (r: NodeAttrs)
    ensures Surrounds(r, Placed(n, position, bbox), pad)
  {
    n.(x := position.x + bbox.x - pad, y := position.y + bbox.y - pad,
       width := bbox.width + pad * 2.0, height := bbox.height + pad * 2.0)
  }

  predicate Surrounds(outer: NodeAttrs, inner: NodeAttrs, pad: real) {
    && outer.x == inner.x - pad && outer.y == inner.y - pad
    && outer.width == inner.width + 2.0 * pad && outer.height == inner.height + 2.0 * pad
  }

  /**
   * An object or buffer group positioned for an entity at `position`: it is
   * moved to the pixel rect's origin and offset back by it, so its content
   * is drawn at `position`.
   */
  function GroupAt(g: NodeAttrs, position: Coordinate, pixelRect: Rect): (r: NodeAttrs)
    ensures r.x - r.offsetX == position.x && r.y - r.offsetY == position.y
    ensures r.offsetX == pixelRect.x && r.offsetY == pixelRect.y
  {
    g.(x := position.x + pixelRect.x, y := position.y + pixelRect.y, offsetX := pixelRect.x, offsetY := pixelRect.y)
  }

  /** The proxy, outline and groups are placed over `pixelRect` for an entity at `position`. */
  predicate PlacedOver(proxy: NodeAttrs, outline: NodeAttrs, objectGroup: NodeAttrs, bufferGroup: NodeAttrs,
                       position: Coordinate, pixelRect: Rect, pad: real)
  {
    && proxy.x - position.x == pixelRect.x && proxy.y - position.y == pixelRect.y
    && proxy.width == pixelRect.width && proxy.height == pixelRect.height
    && Surrounds(outline, proxy, pad)
    && objectGroup == GroupAt(objectGroup, position, pixelRect)
    && bufferGroup == GroupAt(bufferGroup, position, pixelRect)
  }

  // ---------------------------------------------------------------------------
  // What `updateBbox` does to each node. It re-syncs the mode unless the pixel
  // rect is empty with no objects (`synced`), and re-places the nodes when no
  // calculation is pending and the pixel rect has an area (`placed`).

  function ProxyAfterBbox(n: NodeAttrs, synced: bool, placed: bool, on: bool,
                          position: Coordinate, pixelRect: Rect): NodeAttrs
  {
    if placed then Placed(WithListening(n, on), position, pixelRect)
    else if synced then WithListening(n, on)
    else n
  }

  function OutlineAfterBbox(n: NodeAttrs, synced: bool, placed: bool, on: bool,
                            position: Coordinate, pixelRect: Rect, pad: real): NodeAttrs
  {
    if placed then Outlined(WithVisible(n, on), position, pixelRect, pad)
    else if synced then WithVisible(n, on)
    else n
  }

  function GroupAfterBbox(g: NodeAttrs, placed: bool, position: Coordinate, pixelRect: Rect): NodeAttrs {
    if placed then GroupAt(g, position, pixelRect) else g
  }

  /**
   * The node algebra behind `stopTransform`: a node placed at a position,
   * passed through `updateBbox` and a final visibility update ends up placed
   * there with only the final visibility, whichever way `updateBbox` went.
   */
  lemma ProxySurvivesBboxUpdate(proxy: NodeAttrs, synced: bool, placed: bool, on: bool, finalOn: bool,
                                position: Coordinate, pixelRect: Rect)
    ensures var p := Placed(Unscaled(WithListening(proxy, false)), position, pixelRect);
      WithListening(ProxyAfterBbox(p, synced, placed, on, position, pixelRect), finalOn)
        == Placed(Unscaled(WithListening(proxy, finalOn)), position, pixelRect)
  {
  }

  lemma OutlineSurvivesBboxUpdate(outline: NodeAttrs, synced: bool, placed: bool, shown: bool, finalShown: bool,
                                  position: Coordinate, pixelRect: Rect, pad: real)
    ensures var o := Outlined(Unscaled(WithVisible(outline, false)), position, pixelRect, pad);
      WithVisible(OutlineAfterBbox(o, synced, placed, shown, position, pixelRect, pad), finalShown)
        == Outlined(Unscaled(WithVisible(outline, finalShown)), position, pixelRect, pad)
  {
  }

  lemma GroupSurvivesBboxUpdate(group: NodeAttrs, placed: bool, position: Coordinate, pixelRect: Rect)
    ensures var g := GroupAt(Unscaled(group), position, pixelRect);
      GroupAfterBbox(g, placed, position, pixelRect) == g
  {
  }

  /** Nodes each placed for one position and pixel rect are placed together, whatever they were before. */
  lemma PlacingAllIsPlacedOver(proxy: NodeAttrs, outline: NodeAttrs, objectGroup: NodeAttrs, bufferGroup: NodeAttrs,
                               position: Coordinate, pixelRect: Rect, pad: real,
                               proxy0: NodeAttrs, outline0: NodeAttrs, objectGroup0: NodeAttrs, bufferGroup0: NodeAttrs)
    requires proxy == Placed(proxy0, position, pixelRect) && outline == Outlined(outline0, position, pixelRect, pad)
    requires objectGroup == GroupAt(objectGroup0, position, pixelRect)
    requires bufferGroup == GroupAt(bufferGroup0, position, pixelRect)
    ensures PlacedOver(proxy, outline, objectGroup, bufferGroup, position, pixelRect, pad)
  {
  }

  /** The entity position a drag ends at: the proxy rect's position less the pixel rect's origin. */
  function DraggedPosition(proxy: NodeAttrs, pixelRect: Rect): (r: Coordinate)
    ensures Placed(proxy, r, pixelRect).x == proxy.x && Placed(proxy, r, pixelRect).y == proxy.y
  {
    Coordinate(proxy.x - pixelRect.x, proxy.y - pixelRect.y)
  }

  /** Ending a drag where the proxy was placed reports the position it was placed for, and back. */
  lemma DraggedPositionInvertsPlacement(n: NodeAttrs, position: Coordinate, pixelRect: Rect)
    ensures DraggedPosition(Placed(n, position, pixelRect), pixelRect) == position
    ensures var p := Placed(n, DraggedPosition(n, pixelRect), pixelRect); p.x == n.x && p.y == n.y
  {
  }

  /**
   * The pixel rect from the worker's extents: the extents, which are relative
   * to the rasterised canvas, moved to the rounded origin of the node rect.
   */
  function PixelRectFromExtents(rect: Rect, e: Extents): (r: Rect)
    ensures r.x == (Round(rect.x) + e.minX) as real && r.y == (Round(rect.y) + e.minY) as real
    ensures r.x + r.width == (Round(rect.x) + e.maxX) as real
    ensures r.y + r.height == (Round(rect.y) + e.maxY) as real
    ensures HasNoArea(r) <==> e.minX == e.maxX || e.minY == e.maxY
  {
    Rect((Round(rect.x) + e.minX) as real, (Round(rect.y) + e.minY) as real,
         (e.maxX - e.minX) as real, (e.maxY - e.minY) as real)
  }

  // ---------------------------------------------------------------------------
  // Collaborators

  /** The slice of the application store the transformer reads and writes. */
  class StateApi {
    var tool: Tool
    var selectedEntity: Option<EntityId>
    /** The process-wide `$transformingEntity` slot. */
    var transformingEntity: Option<EntityId>
    /** The commands sent to the store, oldest first. */
    var commands: seq<StoreCommand>

    constructor (tool: Tool, selectedEntity: Option<EntityId>)
      ensures this.tool == tool && this.selectedEntity == selectedEntity
      ensures transformingEntity == None && commands == []
    {
      this.tool := tool;
      this.selectedEntity := selectedEntity;
      transformingEntity := None;
      commands := [];
    }

    predicate IsSelected(id: EntityId)
      reads this`selectedEntity
    {
      selectedEntity == Some(id)
    }
  }

  /** The stage, as far as the transformer uses it outside the snapping callbacks. */
  class Stage {
    /** `getScaledPixels(OUTLINE_PADDING)` at the current zoom, supplied by the stage. */
    var outlinePadding: real

    constructor (outlinePadding: real)
      ensures this.outlinePadding == outlinePadding
    {
      this.outlinePadding := outlinePadding;
    }
  }

  /** The entity's renderer: whether it has objects, and the groups that draw them. */
  class EntityRenderer {
    var hasObjects: bool
    /** Whether the objects may carve transparency out of others (eraser lines, clipping). */
    var needsPixelBbox: bool
    var objectGroup: NodeAttrs
    var bufferGroup: NodeAttrs
    /** The rects passed to `rasterize`, oldest first. */
    var rasterized: seq<Rect>

    constructor (hasObjects: bool, needsPixelBbox: bool)
      ensures this.hasObjects == hasObjects && this.needsPixelBbox == needsPixelBbox
      ensures objectGroup == NewRect(true) && bufferGroup == NewRect(true) && rasterized == []
    {
      this.hasObjects := hasObjects;
      this.needsPixelBbox := needsPixelBbox;
      objectGroup := NewRect(true);
      bufferGroup := NewRect(true);
      rasterized := [];
    }

    /** `rasterize({ rect, replaceObjects: true })`, recorded as a call. */
    method Rasterize(rect: Rect)
      modifies this`rasterized
      ensures rasterized == old(rasterized) + [rect]
    {
      rasterized := rasterized + [rect];
    }
  }

  /** The layer or mask adapter that owns the transformer. */
  class EntityAdapter {
    const id: EntityId
    /** `state.position`: the entity's position as last committed to the store. */
    var position: Coordinate
    /** Whether the entity's Konva layer is listening for pointer events. */
    var layerListening: bool

    constructor (id: EntityId, position: Coordinate)
      ensures this.id == id && this.position == position && layerListening
    {
      this.id := id;
      this.position := position;
      layerListening := true;
    }
  }

  // ---------------------------------------------------------------------------
  // The transformer

  class CanvasEntityTransformer {
    const parent: EntityAdapter
    const renderer: EntityRenderer
    const api: StateApi
    const stage: Stage

    /** The rect of the entity including transparent regions. */
    var nodeRect: Rect
    /** The rect of the entity excluding transparent regions. */
    var pixelRect: Rect
    var isPendingRectCalculation: bool
    var isTransforming: bool
    var interactionMode: Mode
    var isDragEnabled: bool
    var isTransformEnabled: bool
    /** The `$isProcessing` atom. */
    var isProcessing: bool

    var proxyRect: NodeAttrs
    var outlineRect: NodeAttrs
    var transformer: TransformerAttrs

    constructor (parent: EntityAdapter, renderer: EntityRenderer, api: StateApi, stage: Stage)
      ensures this.parent == parent && this.renderer == renderer && this.api == api && this.stage == stage
      ensures nodeRect == EmptyRect && pixelRect == EmptyRect
      ensures isPendingRectCalculation && !isTransforming && !isProcessing
      ensures interactionMode == Off && !isDragEnabled && !isTransformEnabled
      ensures proxyRect == NewRect(false) && outlineRect == NewRect(false)
      ensures transformer == TransformerAttrs(false, false, false)
    {
      this.parent := parent;
      this.renderer := renderer;
      this.api := api;
      this.stage := stage;
      nodeRect := EmptyRect;
      pixelRect := EmptyRect;
      isPendingRectCalculation := true;
      isTransforming := false;
      interactionMode := Off;
      isDragEnabled := false;
      isTransformEnabled := false;
      isProcessing := false;
      proxyRect := NewRect(false);
      outlineRect := NewRect(false);
      transformer := TransformerAttrs(false, false, false);
    }

    /** The enable flags and node visibility agree with the interaction mode. */
    predicate ModeApplied()
      reads this`interactionMode, this`isDragEnabled, this`isTransformEnabled
      reads this`proxyRect, this`outlineRect, this`transformer
    {
      var e := ModeEffects(interactionMode);
      && isDragEnabled == e.dragEnabled
      && isTransformEnabled == e.transformEnabled
      && outlineRect.visible == e.outlineVisible
      && proxyRect.visible == isDragEnabled && proxyRect.listening == isDragEnabled
      && transformer == TransformerAttrs(isTransformEnabled, isTransformEnabled, isTransformEnabled)
    }

    /** The mode is the one the decision table gives for the current inputs, and it is applied. */
    predicate ModeSynced()
      reads this`isPendingRectCalculation, this`pixelRect, this`isTransforming
      reads this`interactionMode, this`isDragEnabled, this`isTransformEnabled
      reads this`proxyRect, this`outlineRect, this`transformer
      reads parent`layerListening, renderer`hasObjects, api`selectedEntity, api`tool
    {
      && interactionMode == ResolveMode(isPendingRectCalculation, pixelRect, renderer.hasObjects,
                                        api.selectedEntity == Some(parent.id), isTransforming, api.tool)
      && parent.layerListening == (interactionMode != Off)
      && ModeApplied()
    }

    // --- _enable* / _disable* helpers

    method EnableTransform()
      modifies this`isTransformEnabled, this`transformer
      ensures isTransformEnabled && transformer == TransformerAttrs(true, true, true)
    {
      isTransformEnabled := true;
      transformer := TransformerAttrs(true, true, true);
    }

    method DisableTransform()
      modifies this`isTransformEnabled, this`transformer
      ensures !isTransformEnabled && transformer == TransformerAttrs(false, false, false)
    {
      isTransformEnabled := false;
      transformer := TransformerAttrs(false, false, false);
    }

    method EnableDrag()
      modifies this`isDragEnabled, this`proxyRect
      ensures isDragEnabled && proxyRect == WithListening(old(proxyRect), true)
    {
      isDragEnabled := true;
      proxyRect := WithListening(proxyRect, true);
    }

    method DisableDrag()
      modifies this`isDragEnabled, this`proxyRect
      ensures !isDragEnabled && proxyRect == WithListening(old(proxyRect), false)
    {
      isDragEnabled := false;
      proxyRect := WithListening(proxyRect, false);
    }

    method ShowBboxOutline()
      modifies this`outlineRect
      ensures outlineRect == WithVisible(old(outlineRect), true)
    {
      outlineRect := WithVisible(outlineRect, true);
    }

    method HideBboxOutline()
      modifies this`outlineRect
      ensures outlineRect == WithVisible(old(outlineRect), false)
    {
      outlineRect := WithVisible(outlineRect, false);
    }

    /** `setInteractionMode`: records the mode and applies its effects. */
    method SetInteractionMode(m: Mode)
      modifies this`interactionMode, this`isDragEnabled, this`isTransformEnabled
      modifies this`proxyRect, this`outlineRect, this`transformer
      ensures interactionMode == m && ModeApplied()
      ensures isTransformEnabled ==> isDragEnabled
      ensures proxyRect == WithListening(old(proxyRect), m != Off)
      ensures outlineRect == WithVisible(old(outlineRect), m == Drag)
    {
      interactionMode := m;
      if m == Drag {
        EnableDrag();
        DisableTransform();
        ShowBboxOutline();
      } else if m == All {
        EnableDrag();
        EnableTransform();
        HideBboxOutline();
      } else if m == Off {
        DisableDrag();
        DisableTransform();
        HideBboxOutline();
      }
    }

    /** `syncInteractionState`: re-resolves the mode and sets the layer listening exactly when it is not off. */
    method SyncInteractionState()
      modifies this`interactionMode, this`isDragEnabled, this`isTransformEnabled
      modifies this`proxyRect, this`outlineRect, this`transformer, parent`layerListening
      ensures ModeSynced()
      ensures proxyRect == WithListening(old(proxyRect), interactionMode != Off)
      ensures outlineRect == WithVisible(old(outlineRect), interactionMode == Drag)
    {
      if isPendingRectCalculation || pixelRect.width == 0.0 || pixelRect.height == 0.0 {
        parent.layerListening := false;
        SetInteractionMode(Off);
        return;
      }
      var tool := api.tool;
      var isSelected := api.IsSelected(parent.id);
      if !renderer.hasObjects {
        parent.layerListening := false;
        SetInteractionMode(Off);
        return;
      }
      if isSelected && !isTransforming && tool == Move {
        parent.layerListening := true;
        SetInteractionMode(Drag);
      } else if isSelected && isTransforming {
        if tool != View {
          parent.layerListening := true;
          SetInteractionMode(All);
        } else {
          parent.layerListening := false;
          SetInteractionMode(Off);
        }
      } else {
        parent.layerListening := false;
        SetInteractionMode(Off);
      }
    }

    /** `update`: places the proxy rect over `bbox` at `position`, and the outline around it. */
    method Update(position: Coordinate, bbox: Rect)
      modifies this`outlineRect, this`proxyRect
      ensures proxyRect == Placed(old(proxyRect), position, bbox)
      ensures outlineRect == Outlined(old(outlineRect), position, bbox, stage.outlinePadding)
    {
      var bboxPadding := stage.outlinePadding;
      outlineRect := outlineRect.(x := position.x + bbox.x - bboxPadding, y := position.y + bbox.y - bboxPadding,
                                  width := bbox.width + bboxPadding * 2.0, height := bbox.height + bboxPadding * 2.0);
      proxyRect := proxyRect.(x := position.x + bbox.x, y := position.y + bbox.y,
                              width := bbox.width, height := bbox.height);
    }

    /**
     * `updatePosition`: positions the object and buffer groups and the proxy
     * and outline rects for `arg`, or for the stored position when omitted.
     */
    method UpdatePosition(arg: Option<Coordinate>)
      modifies renderer`objectGroup, renderer`bufferGroup, this`outlineRect, this`proxyRect
      ensures var position := arg.GetOr(parent.position);
        && renderer.objectGroup == GroupAt(old(renderer.objectGroup), position, pixelRect)
        && renderer.bufferGroup == GroupAt(old(renderer.bufferGroup), position, pixelRect)
        && proxyRect == Placed(old(proxyRect), position, pixelRect)
        && outlineRect == Outlined(old(outlineRect), position, pixelRect, stage.outlinePadding)
    {
      var position := arg.GetOr(parent.position);
      renderer.objectGroup := GroupAt(renderer.objectGroup, position, pixelRect);
      renderer.bufferGroup := GroupAt(renderer.bufferGroup, position, pixelRect);
      Update(position, pixelRect);
    }

    /** The state change `updateBbox` makes, relative to the state before it. */
    twostate predicate BboxUpdated()
      reads this`isPendingRectCalculation, this`pixelRect, this`isTransforming
      reads this`interactionMode, this`isDragEnabled, this`isTransformEnabled
      reads this`proxyRect, this`outlineRect, this`transformer
      reads parent`layerListening, parent`position, renderer`hasObjects, renderer`objectGroup
      reads renderer`bufferGroup, api`selectedEntity, api`tool, api`commands, stage`outlinePadding
    {
      var synced := isPendingRectCalculation || !HasNoArea(pixelRect) || renderer.hasObjects;
      var placed := !isPendingRectCalculation && !HasNoArea(pixelRect);
      var reset := !isPendingRectCalculation && HasNoArea(pixelRect) && renderer.hasObjects;
      && api.commands == old(api.commands) + (if reset then [ResetEntity(parent.id)] else [])
      && (synced ==> ModeSynced())
      && (!synced ==>
            && interactionMode == old(interactionMode) && isDragEnabled == old(isDragEnabled)
            && isTransformEnabled == old(isTransformEnabled) && transformer == old(transformer)
            && parent.layerListening == old(parent.layerListening))
      && proxyRect == ProxyAfterBbox(old(proxyRect), synced, placed, interactionMode != Off, parent.position, pixelRect)
      && outlineRect == OutlineAfterBbox(old(outlineRect), synced, placed, interactionMode == Drag,
                                         parent.position, pixelRect, stage.outlinePadding)
      && renderer.objectGroup == GroupAfterBbox(old(renderer.objectGroup), placed, parent.position, pixelRect)
      && renderer.bufferGroup == GroupAfterBbox(old(renderer.bufferGroup), placed, parent.position, pixelRect)
    }

    /**
     * `updateBbox`: while a calculation is pending only the mode is re-synced.
     * An empty pixel rect resets the entity in the store exactly when the
     * renderer still has objects; a non-empty one places the proxy, outline
     * and groups over it.
     */
    method UpdateBbox()
      modifies this`interactionMode, this`isDragEnabled, this`isTransformEnabled
      modifies this`proxyRect, this`outlineRect, this`transformer, parent`layerListening
      modifies api`commands, renderer`objectGroup, renderer`bufferGroup
      ensures BboxUpdated()
    {
      if isPendingRectCalculation {
        SyncInteractionState();
        return;
      }
      if pixelRect.width == 0.0 || pixelRect.height == 0.0 {
        if renderer.hasObjects {
          api.commands := api.commands + [ResetEntity(parent.id)];
          SyncInteractionState();
        }
      } else {
        SyncInteractionState();
        Update(parent.position, pixelRect);
        renderer.objectGroup := GroupAt(renderer.objectGroup, parent.position, pixelRect);
        renderer.bufferGroup := GroupAt(renderer.bufferGroup, parent.position, pixelRect);
      }
    }

    /**
     * The body of the debounced `calculateRect`, given the client rect of the
     * object group. Without objects both rects become empty; when no pixel
     * bbox is needed both become the client rect; otherwise the raster is sent
     * to the worker (the returned request), and the rects wait for ReceiveExtents.
     */
    method CalculateRect(clientRect: Rect) returns (request: Option<Rect>)
      modifies this`nodeRect, this`pixelRect, this`isPendingRectCalculation
      modifies this`interactionMode, this`isDragEnabled, this`isTransformEnabled
      modifies this`proxyRect, this`outlineRect, this`transformer, parent`layerListening
      modifies api`commands, renderer`objectGroup, renderer`bufferGroup
      ensures request == if renderer.hasObjects && renderer.needsPixelBbox then Some(clientRect) else None
      ensures !renderer.hasObjects ==> nodeRect == EmptyRect && pixelRect == EmptyRect
      ensures renderer.hasObjects && !renderer.needsPixelBbox ==> nodeRect == clientRect && pixelRect == clientRect
      ensures request == None ==> !isPendingRectCalculation && BboxUpdated()
      ensures request != None ==>
        && isPendingRectCalculation && nodeRect == old(nodeRect) && pixelRect == old(pixelRect)
        && unchanged(this`interactionMode, this`isDragEnabled, this`isTransformEnabled)
        && unchanged(this`proxyRect, this`outlineRect, this`transformer, parent`layerListening)
        && unchanged(api`commands, renderer`objectGroup, renderer`bufferGroup)
    {
      isPendingRectCalculation := true;
      if !renderer.hasObjects {
        nodeRect := EmptyRect;
        pixelRect := EmptyRect;
        isPendingRectCalculation := false;
        UpdateBbox();
        return None;
      }
      var rect := clientRect;
      if !renderer.needsPixelBbox {
        nodeRect := rect;
        pixelRect := rect;
        isPendingRectCalculation := false;
        UpdateBbox();
        return None;
      }
      return Some(rect);
    }

    /**
     * The worker's reply to a request made by CalculateRect for `rect`:
     * extents give the pixel rect, none (fully transparent) give empty rects.
     * The reply is applied whenever it arrives.
     */
    method ReceiveExtents(rect: Rect, extents: Option<Extents>)
      modifies this`nodeRect, this`pixelRect, this`isPendingRectCalculation
      modifies this`interactionMode, this`isDragEnabled, this`isTransformEnabled
      modifies this`proxyRect, this`outlineRect, this`transformer, parent`layerListening
      modifies api`commands, renderer`objectGroup, renderer`bufferGroup
      ensures extents.Some? ==> nodeRect == rect && pixelRect == PixelRectFromExtents(rect, extents.value)
      ensures extents.None? ==> nodeRect == EmptyRect && pixelRect == EmptyRect
      ensures !isPendingRectCalculation && BboxUpdated()
    {
      if extents.Some? {
        nodeRect := rect;
        pixelRect := PixelRectFromExtents(rect, extents.value);
      } else {
        nodeRect := EmptyRect;
        pixelRect := EmptyRect;
      }
      isPendingRectCalculation := false;
      UpdateBbox();
    }

    /**
     * `requestRectCalculation`: marks the rect as pending, which turns the mode
     * off; the debounced CalculateRect runs later as its own step.
     */
    method RequestRectCalculation()
      modifies this`isPendingRectCalculation
      modifies this`interactionMode, this`isDragEnabled, this`isTransformEnabled
      modifies this`proxyRect, this`outlineRect, this`transformer, parent`layerListening
      ensures isPendingRectCalculation && ModeSynced()
      ensures interactionMode == Off && !isDragEnabled && !isTransformEnabled && !parent.layerListening
      ensures proxyRect == WithListening(old(proxyRect), false) && outlineRect == WithVisible(old(outlineRect), false)
    {
      isPendingRectCalculation := true;
      SyncInteractionState();
    }

    /**
     * `startTransform`: switches to the move tool and the all mode and claims
     * the transforming-entity slot, whatever it held before.
     */
    method StartTransform()
      modifies this`isTransforming, api`tool, api`transformingEntity, parent`layerListening
      modifies this`interactionMode, this`isDragEnabled, this`isTransformEnabled
      modifies this`proxyRect, this`outlineRect, this`transformer
      ensures isTransforming && api.tool == Move && parent.layerListening
      ensures interactionMode == All && isDragEnabled && isTransformEnabled && ModeApplied()
      ensures api.transformingEntity == Some(parent.id)
      ensures proxyRect == WithListening(old(proxyRect), true) && outlineRect == WithVisible(old(outlineRect), false)
    {
      isTransforming := true;
      api.tool := Move;
      var shouldListen := api.tool != View;
      parent.layerListening := shouldListen;
      SetInteractionMode(All);
      api.transformingEntity := Some(parent.id);
    }

    /** `resetScale`: scale (1, 1) and rotation 0 on the object group, buffer group, outline and proxy. */
    method ResetScale()
      modifies renderer`objectGroup, renderer`bufferGroup, this`outlineRect, this`proxyRect
      ensures renderer.objectGroup == Unscaled(old(renderer.objectGroup))
      ensures renderer.bufferGroup == Unscaled(old(renderer.bufferGroup))
      ensures outlineRect == Unscaled(old(outlineRect)) && proxyRect == Unscaled(old(proxyRect))
    {
      renderer.objectGroup := Unscaled(renderer.objectGroup);
      renderer.bufferGroup := Unscaled(renderer.bufferGroup);
      outlineRect := Unscaled(outlineRect);
      proxyRect := Unscaled(proxyRect);
    }

    /** All four nodes carry the identity scale and rotation. */
    predicate ScaleReset()
      reads this`proxyRect, this`outlineRect, renderer`objectGroup, renderer`bufferGroup
    {
      && proxyRect.scaleX == 1.0 && proxyRect.scaleY == 1.0 && proxyRect.rotation == 0.0
      && outlineRect.scaleX == 1.0 && outlineRect.scaleY == 1.0 && outlineRect.rotation == 0.0
      && renderer.objectGroup.scaleX == 1.0 && renderer.objectGroup.scaleY == 1.0
      && renderer.objectGroup.rotation == 0.0
      && renderer.bufferGroup.scaleX == 1.0 && renderer.bufferGroup.scaleY == 1.0
      && renderer.bufferGroup.rotation == 0.0
    }

    /** The proxy, outline and groups are placed over the pixel rect at the stored position. */
    predicate PlacedAtPosition()
      reads this`proxyRect, this`outlineRect, this`pixelRect, renderer`objectGroup, renderer`bufferGroup
      reads parent`position, stage`outlinePadding
    {
      PlacedOver(proxyRect, outlineRect, renderer.objectGroup, renderer.bufferGroup,
                 parent.position, pixelRect, stage.outlinePadding)
    }

    /** Scale and placement stay as they were across writes that touch none of the fields they read. */
    twostate lemma PlacementKept()
      requires old(ScaleReset()) && old(PlacedAtPosition())
      requires unchanged(this`proxyRect, this`outlineRect, this`pixelRect, renderer`objectGroup, renderer`bufferGroup)
      requires unchanged(parent`position, stage`outlinePadding)
      ensures ScaleReset() && PlacedAtPosition()
    {
    }

    /** The mode stays synced across writes that touch none of the fields it reads. */
    twostate lemma ModeSyncedKept()
      requires old(ModeSynced())
      requires unchanged(this`isPendingRectCalculation, this`pixelRect, this`isTransforming)
      requires unchanged(this`interactionMode, this`isDragEnabled, this`isTransformEnabled)
      requires unchanged(this`proxyRect, this`outlineRect, this`transformer)
      requires unchanged(parent`layerListening, renderer`hasObjects, api`selectedEntity, api`tool)
      ensures ModeSynced()
    {
    }

    /**
     * `stopTransform`: ends the gesture, resets scale and rotation, re-places
     * everything at the stored position, re-applies the bbox and the mode,
     * and clears the transforming-entity slot and the processing flag.
     */
    method StopTransform()
      modifies this`isTransforming, this`isProcessing, api`transformingEntity
      modifies this`interactionMode, this`isDragEnabled, this`isTransformEnabled
      modifies this`proxyRect, this`outlineRect, this`transformer, parent`layerListening
      modifies api`commands, renderer`objectGroup, renderer`bufferGroup
      ensures !isTransforming && api.transformingEntity == None && !isProcessing
      ensures ModeSynced() && ScaleReset() && PlacedAtPosition()
      ensures api.commands == old(api.commands) +
        (if !isPendingRectCalculation && HasNoArea(pixelRect) && renderer.hasObjects then [ResetEntity(parent.id)] else [])
      ensures proxyRect == Placed(Unscaled(WithListening(old(proxyRect), interactionMode != Off)), parent.position, pixelRect)
      ensures outlineRect == Outlined(Unscaled(WithVisible(old(outlineRect), interactionMode == Drag)),
                                      parent.position, pixelRect, stage.outlinePadding)
      ensures renderer.objectGroup == GroupAt(Unscaled(old(renderer.objectGroup)), parent.position, pixelRect)
      ensures renderer.bufferGroup == GroupAt(Unscaled(old(renderer.bufferGroup)), parent.position, pixelRect)
    {
      isTransforming := false;
      SetInteractionMode(Off);
      ResetScale();
      UpdatePosition(None);
      UpdateBbox();
      ghost var on, shown := interactionMode != Off, interactionMode == Drag;
      SyncInteractionState();
      label Synced:
      assert && proxyRect == Placed(Unscaled(WithListening(old(proxyRect), interactionMode != Off)), parent.position, pixelRect)
             && outlineRect == Outlined(Unscaled(WithVisible(old(outlineRect), interactionMode == Drag)),
                                        parent.position, pixelRect, stage.outlinePadding)
             && renderer.objectGroup == GroupAt(Unscaled(old(renderer.objectGroup)), parent.position, pixelRect)
             && renderer.bufferGroup == GroupAt(Unscaled(old(renderer.bufferGroup)), parent.position, pixelRect)
             && ScaleReset() && PlacedAtPosition()
      by {
        var synced := isPendingRectCalculation || !HasNoArea(pixelRect) || renderer.hasObjects;
        var placed := !isPendingRectCalculation && !HasNoArea(pixelRect);
        ProxySurvivesBboxUpdate(old(proxyRect), synced, placed, on, interactionMode != Off, parent.position, pixelRect);
        OutlineSurvivesBboxUpdate(old(outlineRect), synced, placed, shown, interactionMode == Drag,
                                  parent.position, pixelRect, stage.outlinePadding);
        GroupSurvivesBboxUpdate(old(renderer.objectGroup), placed, parent.position, pixelRect);
        GroupSurvivesBboxUpdate(old(renderer.bufferGroup), placed, parent.position, pixelRect);
        PlacingAllIsPlacedOver(proxyRect, outlineRect, renderer.objectGroup, renderer.bufferGroup,
                               parent.position, pixelRect, stage.outlinePadding,
                               Unscaled(WithListening(old(proxyRect), interactionMode != Off)),
                               Unscaled(WithVisible(old(outlineRect), interactionMode == Drag)),
                               Unscaled(old(renderer.objectGroup)), Unscaled(old(renderer.bufferGroup)));
      }
      api.transformingEntity := None;
      isProcessing := false;
      ModeSyncedKept@Synced();
      PlacementKept@Synced();
    }

    /**
     * `applyTransform`, with the awaited `rasterize` as one recorded call:
     * bakes the proxy's relative rect, requests a new rect calculation and
     * stops the transform. The mode ends off because the calculation is pending.
     */
    method ApplyTransform(relativeRect: Rect)
      modifies this`isTransforming, this`isProcessing, this`isPendingRectCalculation
      modifies api`transformingEntity, renderer`rasterized
      modifies this`interactionMode, this`isDragEnabled, this`isTransformEnabled
      modifies this`proxyRect, this`outlineRect, this`transformer, parent`layerListening
      modifies api`commands, renderer`objectGroup, renderer`bufferGroup
      ensures renderer.rasterized == old(renderer.rasterized) + [relativeRect]
      ensures isPendingRectCalculation && !isTransforming && api.transformingEntity == None && !isProcessing
      ensures interactionMode == Off && !isDragEnabled && !isTransformEnabled && !parent.layerListening
      ensures ModeSynced() && ScaleReset() && PlacedAtPosition()
      ensures api.commands == old(api.commands)
      ensures proxyRect == Placed(Unscaled(WithListening(old(proxyRect), false)), parent.position, pixelRect)
      ensures outlineRect == Outlined(Unscaled(WithVisible(old(outlineRect), false)),
                                      parent.position, pixelRect, stage.outlinePadding)
      ensures renderer.objectGroup == GroupAt(Unscaled(old(renderer.objectGroup)), parent.position, pixelRect)
      ensures renderer.bufferGroup == GroupAt(Unscaled(old(renderer.bufferGroup)), parent.position, pixelRect)
    {
      isProcessing := true;
      renderer.Rasterize(relativeRect);
      RequestRectCalculation();
      StopTransform();
    }

    // --- Konva event handlers

    /** `transform`: the object group follows the proxy rect while an anchor is dragged. */
    method OnTransform()
      modifies renderer`objectGroup
      ensures renderer.objectGroup == old(renderer.objectGroup).(x := proxyRect.x, y := proxyRect.y,
        scaleX := proxyRect.scaleX, scaleY := proxyRect.scaleY, rotation := proxyRect.rotation)
    {
      renderer.objectGroup := renderer.objectGroup.(x := proxyRect.x, y := proxyRect.y,
        scaleX := proxyRect.scaleX, scaleY := proxyRect.scaleY, rotation := proxyRect.rotation);
    }

    /**
     * `transformend`: snaps the proxy rect to whole pixels and gives the
     * object group the same position and scale. Unless a raw scale is zero,
     * the footprint becomes a whole number of pixels, at least one, with the flip kept.
     */
    method OnTransformEnd()
      requires 0.0 < proxyRect.width && 0.0 < proxyRect.height
      modifies this`proxyRect, renderer`objectGroup
      ensures var s := SnapTransformEnd(old(proxyRect.x), old(proxyRect.y), old(proxyRect.width),
                                        old(proxyRect.height), old(proxyRect.scaleX), old(proxyRect.scaleY));
        && proxyRect == old(proxyRect).(x := s.x as real, y := s.y as real, scaleX := s.scaleX, scaleY := s.scaleY)
        && renderer.objectGroup == old(renderer.objectGroup).(x := s.x as real, y := s.y as real,
                                                             scaleX := s.scaleX, scaleY := s.scaleY)
      ensures renderer.objectGroup.x == proxyRect.x && renderer.objectGroup.y == proxyRect.y
      ensures renderer.objectGroup.scaleX == proxyRect.scaleX && renderer.objectGroup.scaleY == proxyRect.scaleY
      ensures Sign(proxyRect.scaleX) == Sign(old(proxyRect.scaleX)) && Sign(proxyRect.scaleY) == Sign(old(proxyRect.scaleY))
      ensures old(proxyRect.scaleX) != 0.0 ==> Abs(proxyRect.width * proxyRect.scaleX) == TargetSize(proxyRect.width, old(proxyRect.scaleX)) as real
      ensures old(proxyRect.scaleY) != 0.0 ==> Abs(proxyRect.height * proxyRect.scaleY) == TargetSize(proxyRect.height, old(proxyRect.scaleY)) as real
    {
      var x := proxyRect.x;
      var y := proxyRect.y;
      var width := proxyRect.width;
      var height := proxyRect.height;
      var scaleX := proxyRect.scaleX;
      var scaleY := proxyRect.scaleY;
      var s := SnapTransformEnd(x, y, width, height, scaleX, scaleY);
      proxyRect := proxyRect.(x := s.x as real, y := s.y as real, scaleX := s.scaleX, scaleY := s.scaleY);
      renderer.objectGroup := renderer.objectGroup.(x := s.x as real, y := s.y as real,
                                                    scaleX := s.scaleX, scaleY := s.scaleY);
      AxisFootprint(width, scaleX);
      AxisFootprint(height, scaleY);
    }

    /** `dragmove`: rounds the proxy rect to whole pixels; the outline and object group follow it. */
    method OnDragMove()
      modifies this`proxyRect, this`outlineRect, renderer`objectGroup
      ensures proxyRect == old(proxyRect).(x := Round(old(proxyRect.x)) as real, y := Round(old(proxyRect.y)) as real)
      ensures outlineRect == old(outlineRect).(x := proxyRect.x - stage.outlinePadding,
                                               y := proxyRect.y - stage.outlinePadding)
      ensures renderer.objectGroup == old(renderer.objectGroup).(x := proxyRect.x, y := proxyRect.y)
    {
      proxyRect := proxyRect.(x := Round(proxyRect.x) as real);
      proxyRect := proxyRect.(y := Round(proxyRect.y) as real);
      outlineRect := outlineRect.(x := proxyRect.x - stage.outlinePadding, y := proxyRect.y - stage.outlinePadding);
      renderer.objectGroup := renderer.objectGroup.(x := proxyRect.x, y := proxyRect.y);
    }

    /**
     * `dragend`: outside a transform, commits the dragged position to the
     * store; during a transform, writes nothing (a re-render would break the gesture).
     */
    method OnDragEnd()
      modifies api`commands
      ensures api.commands == old(api.commands) +
        (if isTransforming then [] else [SetEntityPosition(parent.id, DraggedPosition(proxyRect, pixelRect))])
    {
      if isTransforming {
        return;
      }
      var position := DraggedPosition(proxyRect, pixelRect);
      api.commands := api.commands + [SetEntityPosition(parent.id, position)];
    }
  }
}
