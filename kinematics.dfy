/**
 * Positions, vectors and the geometric helpers the player code calls.
 *
 * The helpers themselves (Utils.approxEqual, Utils.angleBetween,
 * Utils.vectorFromDirection, Position.distanceTo, Position.vectorTo,
 * Position.addVector, Position.approxEqual and Vector.scale) live in files
 * that are not part of this model. They are gathered into one record of
 * total functions, so every operation that uses them takes that record as a
 * parameter and a proof can only rely on what its hypotheses say of them.
 */
module Kinematics {

  datatype Position = Position(x: real, y: real)

  datatype Vector = Vector(x: real, y: real)

  datatype Helpers = Helpers(
    /** Utils.approxEqual on two angles */
    approxEqual: (real, real) -> bool,
    /** Position.approxEqual */
    positionsApproxEqual: (Position, Position) -> bool,
    /** Utils.angleBetween: the direction, in degrees, from the first position to the second */
    angleBetween: (Position, Position) -> real,
    /** Position.distanceTo */
    distanceTo: (Position, Position) -> real,
    /** Position.vectorTo */
    vectorTo: (Position, Position) -> Vector,
    /** Vector.scale */
    scale: (Vector, real) -> Vector,
    /** Position.addVector */
    addVector: (Position, Vector) -> Position,
    /** Utils.vectorFromDirection: the unit vector for a direction in degrees */
    vectorFromDirection: real -> Vector
  )

  /** Distances are never negative. */
  ghost predicate Sound(h: Helpers)
  {
    forall p: Position, q: Position :: h.distanceTo(p, q) >= 0.0
  }

  function Abs(x: real): (r: real)
    ensures r >= 0.0 && (r == x || r == -x)
  {
    if x < 0.0 then -x else x
  }

  function Min(a: real, b: real): (r: real)
    ensures r <= a && r <= b && (r == a || r == b)
  {
    if a < b then a else b
  }

  /** An angle in the closed range the engine keeps directions in. */
  predicate InDegrees(a: real)
  {
    0.0 <= a <= 360.0
  }
}
