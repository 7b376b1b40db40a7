/**
 * The small slice of vector arithmetic that the two scripts compute themselves:
 * points, axis-aligned bounding boxes and their centres, and the conversion of a
 * pointer position into normalised device coordinates for a ray cast.
 * All quantities are exact reals; floating-point rounding is not modelled.
 */
module Geometry {

  datatype Vec2 = Vec2(x: real, y: real)

  datatype Vec3 = Vec3(x: real, y: real, z: real)

  /** An axis-aligned bounding box given by its two extreme corners. */
  datatype Box3 = Box3(min: Vec3, max: Vec3)

  /** A box whose corners are ordered on every axis. */
  predicate WellFormed(b: Box3) {
    b.min.x <= b.max.x && b.min.y <= b.max.y && b.min.z <= b.max.z
  }

  predicate Contains(b: Box3, p: Vec3) {
    b.min.x <= p.x <= b.max.x && b.min.y <= p.y <= b.max.y && b.min.z <= p.z <= b.max.z
  }

  function Add(a: Vec3, b: Vec3): Vec3 {
    Vec3(a.x + b.x, a.y + b.y, a.z + b.z)
  }

  /**
   * The centre of a box (three.js `Box3.getCenter`). A well-formed box has its
   * centre as far from the lower corner as from the upper one on every axis, and
   * inside the box; an empty box (upper corner below the lower one on some axis)
   * has the origin as its centre.
   */
  function Center(b: Box3): (c: Vec3)
    ensures WellFormed(b) ==> c.x - b.min.x == b.max.x - c.x
    ensures WellFormed(b) ==> c.y - b.min.y == b.max.y - c.y
    ensures WellFormed(b) ==> c.z - b.min.z == b.max.z - c.z
    ensures WellFormed(b) ==> Contains(b, c)
    ensures !WellFormed(b) ==> c == Vec3(0.0, 0.0, 0.0)
  {
    if !WellFormed(b) then Vec3(0.0, 0.0, 0.0)
    else Vec3((b.min.x + b.max.x) / 2.0, (b.min.y + b.max.y) / 2.0, (b.min.z + b.max.z) / 2.0)
  }

  /** The centre of a well-formed box is the one point every corner is equally far from. */
  lemma CenterIsMidpoint(b: Box3, c: Vec3)
    requires WellFormed(b)
    requires c.x - b.min.x == b.max.x - c.x
    requires c.y - b.min.y == b.max.y - c.y
    requires c.z - b.min.z == b.max.z - c.z
    ensures c == Center(b)
  {
  }

  /**
   * A pointer position in pixels, measured from the top-left corner of an area of
   * `width` by `height` pixels, mapped to normalised device coordinates: x grows
   * to the right and y grows upwards, both from -1 to 1 across the area.
   */
  function PointerToNdc(px: real, py: real, width: real, height: real): (ndc: Vec2)
    requires width > 0.0 && height > 0.0
    ensures (0.0 <= px <= width) <==> (-1.0 <= ndc.x <= 1.0)
    ensures (0.0 <= py <= height) <==> (-1.0 <= ndc.y <= 1.0)
    ensures px == 0.0 ==> ndc.x == -1.0
    ensures px == width ==> ndc.x == 1.0
    ensures py == 0.0 ==> ndc.y == 1.0
    ensures py == height ==> ndc.y == -1.0
  {
    Vec2((px / width) * 2.0 - 1.0, -(py / height) * 2.0 + 1.0)
  }

  /** The inverse of PointerToNdc: from device coordinates back to pixels. */
  function NdcToPointer(ndc: Vec2, width: real, height: real): Vec2 {
    Vec2((ndc.x + 1.0) / 2.0 * width, (1.0 - ndc.y) / 2.0 * height)
  }

  /** The conversion loses nothing: the pixel position can be recovered from it. */
  lemma PointerToNdcRoundTrip(px: real, py: real, width: real, height: real)
    requires width > 0.0 && height > 0.0
    ensures NdcToPointer(PointerToNdc(px, py, width, height), width, height) == Vec2(px, py)
  {
  }
}
