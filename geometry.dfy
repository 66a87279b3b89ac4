/** Points and axis-aligned boxes as the canvas uses them (stage or entity-local space, by context). */
module Geometry {

  datatype Coordinate = Coordinate(x: real, y: real)

  datatype Rect = Rect(x: real, y: real, width: real, height: real)

  /** `getEmptyRect()`: the canonical zero rect. */
  const EmptyRect := Rect(0.0, 0.0, 0.0, 0.0)

  /** A rect with no width or no height covers no pixels (the entity is fully transparent). */
  predicate HasNoArea(r: Rect) {
    r.width == 0.0 || r.height == 0.0
  }

  /** Pixel extents reported by the bbox worker, relative to the rasterised canvas. */
  datatype Extents = Extents(minX: int, minY: int, maxX: int, maxY: int)
}
