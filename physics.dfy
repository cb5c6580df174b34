/** Axis-aligned bounding boxes and their two comparison-only queries. */
module Physics {
  import opened Geometry

  /** A box given by its minimum and maximum corners. Nothing forces min <= max:
      a box with an inverted axis is a value like any other. */
  datatype AABB = AABB(min: Vec3, max: Vec3) {

    /** True when every axis of this box has min <= max. */
    predicate WellFormed()
    {
      min.x <= max.x && min.y <= max.y && min.z <= max.z
    }

    /** Overlap test: the closed extents meet on all three axes, touching included. */
    predicate Intersects(other: AABB)
    {
      (min.x <= other.max.x && max.x >= other.min.x) &&
      (min.y <= other.max.y && max.y >= other.min.y) &&
      (min.z <= other.max.z && max.z >= other.min.z)
    }

    /** Point test: every coordinate of the point lies in [min, max], bounds included. */
    predicate Contains(point: Vec3)
    {
      (point.x >= min.x && point.x <= max.x) &&
      (point.y >= min.y && point.y <= max.y) &&
      (point.z >= min.z && point.z <= max.z)
    }
  }

  /** The overlap test holds exactly when, on every axis, the two closed extents overlap. */
  lemma IntersectsPerAxis(a: AABB, b: AABB)
    ensures a.Intersects(b) <==> forall ax: Axis ::
              Coord(a.min, ax) <= Coord(b.max, ax) && Coord(b.min, ax) <= Coord(a.max, ax)
  {
    if a.Intersects(b) {
      forall ax: Axis ensures Coord(a.min, ax) <= Coord(b.max, ax) && Coord(b.min, ax) <= Coord(a.max, ax) {
        match ax
        case X =>
        case Y =>
        case Z =>
      }
    } else {
      var ax :| ax in [X, Y, Z] && !(Coord(a.min, ax) <= Coord(b.max, ax) && Coord(b.min, ax) <= Coord(a.max, ax));
    }
  }

  /** The point test holds exactly when every coordinate of the point lies in [min, max] of its axis. */
  lemma ContainsPerAxis(a: AABB, p: Vec3)
    ensures a.Contains(p) <==> forall ax: Axis :: Coord(a.min, ax) <= Coord(p, ax) <= Coord(a.max, ax)
    ensures a.Contains(p) ==> a.WellFormed()
  {
    if a.Contains(p) {
      forall ax: Axis ensures Coord(a.min, ax) <= Coord(p, ax) <= Coord(a.max, ax) {
        match ax
        case X =>
        case Y =>
        case Z =>
      }
    } else {
      var ax :| ax in [X, Y, Z] && !(Coord(a.min, ax) <= Coord(p, ax) <= Coord(a.max, ax));
    }
  }

  /** The overlap test does not depend on which box asks. */
  lemma IntersectsSymmetric(a: AABB, b: AABB)
    ensures a.Intersects(b) == b.Intersects(a)
  {
  }

  /** Boxes that only share a face still intersect, because every comparison is inclusive. */
  lemma TouchingBoxesIntersect(a: AABB, b: AABB)
    requires a.WellFormed() && b.WellFormed()
    requires a.max.x == b.min.x
    requires a.min.y <= b.max.y && b.min.y <= a.max.y
    requires a.min.z <= b.max.z && b.min.z <= a.max.z
    ensures a.Intersects(b)
  {
  }

  /** A box intersects itself exactly when it is well formed, and then it holds both of its corners. */
  lemma SelfIntersection(a: AABB)
    ensures a.Intersects(a) <==> a.WellFormed()
    ensures a.Contains(a.min) <==> a.WellFormed()
    ensures a.Contains(a.max) <==> a.WellFormed()
  {
  }

  /** Two boxes that hold a common point intersect. */
  lemma CommonPointIntersects(a: AABB, b: AABB, p: Vec3)
    requires a.Contains(p) && b.Contains(p)
    ensures a.Intersects(b)
  {
  }

  /** Conversely, two well-formed boxes that intersect hold a common point: the corner
      made of the larger minimum on each axis. */
  lemma IntersectionWitness(a: AABB, b: AABB)
    requires a.WellFormed() && b.WellFormed()
    requires a.Intersects(b)
    ensures exists p :: a.Contains(p) && b.Contains(p)
  {
    var p := Vec3(Max(a.min.x, b.min.x), Max(a.min.y, b.min.y), Max(a.min.z, b.min.z));
    assert a.Contains(p) && b.Contains(p);
  }

  /** For well-formed boxes, intersecting means sharing a point, in both directions. */
  lemma IntersectsIffCommonPoint(a: AABB, b: AABB)
    requires a.WellFormed() && b.WellFormed()
    ensures a.Intersects(b) <==> exists p :: a.Contains(p) && b.Contains(p)
  {
    if a.Intersects(b) {
      IntersectionWitness(a, b);
    } else {
      forall p | a.Contains(p) ensures !b.Contains(p) {
        if b.Contains(p) {
          CommonPointIntersects(a, b, p);
        }
      }
    }
  }

  /** Without well-formedness the converse fails: a box inverted on the x axis can
      pass the overlap test while no point lies in it. */
  lemma InvertedBoxIntersectsWithoutCommonPoint()
    ensures var a := AABB(Vec3(1.0, 0.0, 0.0), Vec3(0.0, 1.0, 1.0));
            var b := AABB(Vec3(0.0, 0.0, 0.0), Vec3(1.0, 1.0, 1.0));
            a.Intersects(b) && !exists p :: a.Contains(p)
  {
  }
}
