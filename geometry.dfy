/**
  The `CGPoint` extension: component-wise addition and division by a scalar.
  `CGFloat` is read as an exact real number.
*/
module Geometry {

  datatype Point = Point(x: real, y: real)

  const Origin := Point(0.0, 0.0)

  /** The `+` operator on points. */
  function Add(p: Point, q: Point): Point
  {
    Point(p.x + q.x, p.y + q.y)
  }

  /** `p.divided(by: v)`. The source divides without a guard; v == 0 is excluded here. */
  function DividedBy(p: Point, v: real): (r: Point)
    requires v != 0.0
    ensures r.x * v == p.x && r.y * v == p.y
  {
    Point(p.x / v, p.y / v)
  }

  /** Multiplying by a scalar: the inverse of `DividedBy`, used only to state its meaning. */
  function Scaled(p: Point, v: real): Point
  {
    Point(p.x * v, p.y * v)
  }

  lemma AddIsComponentWise(p: Point, q: Point)
    ensures Add(p, q).x == p.x + q.x && Add(p, q).y == p.y + q.y
  {
  }

  lemma AddIsCommutativeMonoid(p: Point, q: Point, r: Point)
    ensures Add(p, q) == Add(q, p)
    ensures Add(Add(p, q), r) == Add(p, Add(q, r))
    ensures Add(p, Origin) == p && Add(Origin, p) == p
  {
  }

  lemma DividedByOneIsIdentity(p: Point)
    ensures DividedBy(p, 1.0) == p
  {
  }

  lemma DividedByUndoesScaling(p: Point, v: real)
    requires v != 0.0
    ensures DividedBy(Scaled(p, v), v) == p
    ensures Scaled(DividedBy(p, v), v) == p
  {
  }

  lemma DividedByDistributesOverAdd(p: Point, q: Point, v: real)
    requires v != 0.0
    ensures DividedBy(Add(p, q), v) == Add(DividedBy(p, v), DividedBy(q, v))
  {
  }
}
