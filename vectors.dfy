/** The part of glm's 3-component vector algebra that the camera uses, over the reals. */
module Vectors {

  datatype Vec3 = Vec3(x: real, y: real, z: real)

  const Zero: Vec3 := Vec3(0.0, 0.0, 0.0)

  function Add(a: Vec3, b: Vec3): Vec3 {
    Vec3(a.x + b.x, a.y + b.y, a.z + b.z)
  }

  function Sub(a: Vec3, b: Vec3): Vec3 {
    Vec3(a.x - b.x, a.y - b.y, a.z - b.z)
  }

  function Neg(a: Vec3): Vec3 {
    Vec3(-a.x, -a.y, -a.z)
  }

  /** `v * k` for a vector and a scalar. */
  function Scale(a: Vec3, k: real): Vec3 {
    Vec3(a.x * k, a.y * k, a.z * k)
  }

  function Dot(a: Vec3, b: Vec3): real {
    a.x * b.x + a.y * b.y + a.z * b.z
  }

  /** glm::cross. */
  function Cross(a: Vec3, b: Vec3): Vec3 {
    Vec3(a.y * b.z - b.y * a.z, a.z * b.x - b.z * a.x, a.x * b.y - b.x * a.y)
  }

  /** The cross product is orthogonal to both factors. */
  lemma CrossOrthogonal(a: Vec3, b: Vec3)
    ensures Dot(Cross(a, b), a) == 0.0 && Dot(Cross(a, b), b) == 0.0
  {
  }

  /** A vector scaled by k is parallel to itself. */
  lemma CrossScaleSelf(a: Vec3, k: real)
    ensures Cross(Scale(a, k), a) == Zero
  {
  }

  /** glm::normalize, which computes `v * inversesqrt(dot(v, v))`; the inverse
      square root is the math library's and is passed in. */
  function Normalize(v: Vec3, inverseSqrt: real -> real): Vec3 {
    Scale(v, inverseSqrt(Dot(v, v)))
  }

  lemma DotScaleLeft(a: Vec3, k: real, b: Vec3)
    ensures Dot(Scale(a, k), b) == k * Dot(a, b)
  {
  }

  lemma DotScaleRight(a: Vec3, b: Vec3, k: real)
    ensures Dot(a, Scale(b, k)) == k * Dot(a, b)
  {
  }

  lemma DotScaleSelf(a: Vec3, k: real)
    ensures Dot(Scale(a, k), Scale(a, k)) == k * k * Dot(a, a)
  {
    DotScaleLeft(a, k, Scale(a, k));
    DotScaleRight(a, a, k);
  }

  /** Lagrange's identity: |a x b|^2 = |a|^2 |b|^2 - (a . b)^2. */
  lemma Lagrange(a: Vec3, b: Vec3)
    ensures Dot(Cross(a, b), Cross(a, b)) == Dot(a, a) * Dot(b, b) - Dot(a, b) * Dot(a, b)
  {
  }

  lemma AddAssoc(a: Vec3, b: Vec3, c: Vec3)
    ensures Add(Add(a, b), c) == Add(a, Add(b, c))
  {
  }

  lemma AddComm(a: Vec3, b: Vec3)
    ensures Add(a, b) == Add(b, a)
  {
  }
}
