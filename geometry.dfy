/** Three-component vectors, standing for glm::vec3 and for the (x, y, z) float
    triples the audio engine takes. Floats are modelled as reals: rounding and NaN
    are not part of this model. */
module Geometry {

  datatype Vec3 = Vec3(x: real, y: real, z: real)

  const Origin: Vec3 := Vec3(0.0, 0.0, 0.0)

  /** The three coordinate axes, so that per-axis statements can quantify over them. */
  datatype Axis = X | Y | Z

  function Coord(v: Vec3, a: Axis): real
  {
    match a
    case X => v.x
    case Y => v.y
    case Z => v.z
  }

  function Max(a: real, b: real): real
  {
    if a >= b then a else b
  }
}
