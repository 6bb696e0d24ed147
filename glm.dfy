// The small part of the vector library the camera and the meshes use:
// three- and two-component vectors over the reals, their arithmetic,
// the dot and cross products, and the dot-product facts the camera basis
// relies on.
module Glm {

  datatype Vec3 = Vec3(x: real, y: real, z: real)

  datatype Vec2 = Vec2(x: real, y: real)

  const Zero3: Vec3 := Vec3(0.0, 0.0, 0.0)
  const Zero2: Vec2 := Vec2(0.0, 0.0)

  function Add(a: Vec3, b: Vec3): Vec3 {
    Vec3(a.x + b.x, a.y + b.y, a.z + b.z)
  }

  function Sub(a: Vec3, b: Vec3): Vec3 {
    Vec3(a.x - b.x, a.y - b.y, a.z - b.z)
  }

  function Scale(a: Vec3, k: real): Vec3 {
    Vec3(a.x * k, a.y * k, a.z * k)
  }

  function Dot(a: Vec3, b: Vec3): real {
    a.x * b.x + a.y * b.y + a.z * b.z
  }

  function Cross(a: Vec3, b: Vec3): Vec3 {
    Vec3(a.y * b.z - a.z * b.y, a.z * b.x - a.x * b.z, a.x * b.y - a.y * b.x)
  }

  /** The cross product is orthogonal to its first factor. */
  lemma CrossOrthogonalLeft(a: Vec3, b: Vec3)
    ensures Dot(a, Cross(a, b)) == 0.0
  {
  }

  /** The cross product is orthogonal to its second factor. */
  lemma CrossOrthogonalRight(a: Vec3, b: Vec3)
    ensures Dot(b, Cross(a, b)) == 0.0
  {
  }

  /** Scaling the second factor scales the dot product. */
  lemma DotScaleRight(a: Vec3, b: Vec3, k: real)
    ensures Dot(a, Scale(b, k)) == k * Dot(a, b)
  {
  }
}
