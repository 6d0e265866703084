/**
 * Exact three-dimensional vectors and the power-of-two scale used by the
 * resolution levels. The program works with IEEE doubles; here every
 * coordinate is an exact `real`.
 */
module Geometry {

  datatype Vec3 = Vec3(x: real, y: real, z: real)

  const Origin: Vec3 := Vec3(0.0, 0.0, 0.0)

  function Add(a: Vec3, b: Vec3): Vec3 {
    Vec3(a.x + b.x, a.y + b.y, a.z + b.z)
  }

  /** Component-wise product: the effect of an object's per-axis `scale` on a local point. */
  function Stretch(s: Vec3, v: Vec3): Vec3 {
    Vec3(s.x * v.x, s.y * v.y, s.z * v.z)
  }

  /** Multiplication of a vector by a single factor. */
  function Times(f: real, v: Vec3): Vec3 {
    Vec3(f * v.x, f * v.y, f * v.z)
  }

  /** The same factor on all three axes. */
  function Uniform(f: real): Vec3 {
    Vec3(f, f, f)
  }

  /** `Math.pow(2, n)` for an integer exponent, negative exponents included. */
  function Pow2(n: int): (r: real)
    ensures r > 0.0
    decreases if n < 0 then -n else n
  {
    if n == 0 then 1.0
    else if n > 0 then 2.0 * Pow2(n - 1)
    else Pow2(n + 1) / 2.0
  }

  /** One more level doubles the power of two, whatever the sign of the exponent. */
  lemma Pow2Succ(n: int)
    ensures Pow2(n + 1) == 2.0 * Pow2(n)
  {
  }

  /** A vector stretched by a uniform scale is that vector times the factor. */
  lemma StretchUniform(f: real, v: Vec3)
    ensures Stretch(Uniform(f), v) == Times(f, v)
  {
  }
}
