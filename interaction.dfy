/**
 * The interaction-mode decision table of the entity transformer and what
 * each mode switches on or off.
 */
module Interaction {
  import opened Geometry

  /** The canvas tools that the transformer distinguishes; every other tool behaves alike. */
  datatype Tool = Move | View | OtherTool

  /**
   * - `All`: the entity can be moved, resized and rotated.
   * - `Drag`: the entity can be moved.
   * - `Off`: the transformer is not interactable.
   */
  datatype Mode = Off | Drag | All

  /** The entity is ready for interaction: its bbox is known, covers pixels, and it has objects. */
  predicate Interactable(pending: bool, pixelRect: Rect, hasObjects: bool) {
    !pending && !HasNoArea(pixelRect) && hasObjects
  }

  /**
   * The decision `syncInteractionState` takes: off while the rect is being
   * calculated, while it is empty, or while the renderer has no objects;
   * otherwise drag for a selected entity under the move tool outside a
   * transform, all for a selected entity being transformed (unless the view
   * tool is active), and off in every other case.
   */
  function ResolveMode(pending: bool, pixelRect: Rect, hasObjects: bool, isSelected: bool,
                       isTransforming: bool, tool: Tool): (m: Mode)
    ensures !Interactable(pending, pixelRect, hasObjects) ==> m == Off
    ensures m == Drag <==>
      Interactable(pending, pixelRect, hasObjects) && isSelected && !isTransforming && tool == Move
    ensures m == All <==>
      Interactable(pending, pixelRect, hasObjects) && isSelected && isTransforming && tool != View
  {
    if pending || pixelRect.width == 0.0 || pixelRect.height == 0.0 then
      Off
    else if !hasObjects then
      Off
    else if isSelected && !isTransforming && tool == Move then
      Drag
    else if isSelected && isTransforming then
      if tool != View then All else Off
    else
      Off
  }

  /** What a mode switches on: dragging, the transform handles, the static outline. */
  datatype Effects = Effects(dragEnabled: bool, transformEnabled: bool, outlineVisible: bool)

  /**
   * `setInteractionMode`: drag enables dragging and shows the outline; all
   * enables dragging and transforming and hides the outline (the live handles
   * replace it); off disables both and hides the outline.
   */
  function ModeEffects(m: Mode): (e: Effects)
    ensures e.dragEnabled <==> m != Off
    ensures e.transformEnabled <==> m == All
    ensures e.outlineVisible <==> m == Drag
    ensures e.transformEnabled ==> e.dragEnabled
  {
    match m
    case Drag => Effects(true, false, true)
    case All => Effects(true, true, false)
    case Off => Effects(false, false, false)
  }

  /** A fully transparent entity (no area) is never interactable, whatever the selection and tool. */
  lemma EmptyEntityIsOff(pending: bool, hasObjects: bool, isSelected: bool, isTransforming: bool, tool: Tool)
    ensures ResolveMode(pending, EmptyRect, hasObjects, isSelected, isTransforming, tool) == Off
  {
  }
}
