/**
 * The part of raylib's vector library the simulation uses, over the reals.
 * Square root, sine and cosine are not interpreted: they are the fields of a
 * `Maths` value passed to whatever needs them, and the few laws a property
 * depends on are stated as preconditions of that property.
 */
module RayMath {

  datatype Vector3 = Vector3(x: real, y: real, z: real)

  datatype Vector2 = Vector2(x: real, y: real)

  const Zero := Vector3(0.0, 0.0, 0.0)

  /** raylib's `PI` literal. */
  const Pi: real := 3.14159265358979323846

  /** The uninterpreted elementary functions. */
  datatype Maths = Maths(sqrt: real -> real, sin: real -> real, cos: real -> real)

  /** The only law of `sqrt` the model ever needs: zero at zero, positive on positives. */
  ghost predicate SqrtPositive(m: Maths)
  {
    && m.sqrt(0.0) == 0.0
    && forall x: real :: x > 0.0 ==> m.sqrt(x) > 0.0
  }

  function Add(a: Vector3, b: Vector3): Vector3 { Vector3(a.x + b.x, a.y + b.y, a.z + b.z) }

  function Sub(a: Vector3, b: Vector3): Vector3 { Vector3(a.x - b.x, a.y - b.y, a.z - b.z) }

  function Scale(a: Vector3, s: real): Vector3 { Vector3(a.x * s, a.y * s, a.z * s) }

  /** Component-wise product (raylib's `Vector3 * Vector3`). */
  function Mul(a: Vector3, b: Vector3): Vector3 { Vector3(a.x * b.x, a.y * b.y, a.z * b.z) }

  function Neg(a: Vector3): Vector3 { Vector3(-a.x, -a.y, -a.z) }

  function Dot(a: Vector3, b: Vector3): real { a.x * b.x + a.y * b.y + a.z * b.z }

  /** `Vector3Length`: the square root of the squared norm. */
  function Length(m: Maths, v: Vector3): real { m.sqrt(Dot(v, v)) }

  /** `Vector3Normalize`: a vector of length 0 is returned unchanged. */
  function Normalize(m: Maths, v: Vector3): Vector3
  {
    var len := Length(m, v);
    if len != 0.0 then Scale(v, 1.0 / len) else v
  }

  /** `Vector2Normalize`: a vector whose length is not positive becomes the zero vector. */
  function Normalize2(m: Maths, v: Vector2): Vector2
  {
    var len := m.sqrt(v.x * v.x + v.y * v.y);
    if len > 0.0 then Vector2(v.x / len, v.y / len) else Vector2(0.0, 0.0)
  }

  /** raymath's `Clamp`: the lower bound is applied first, the upper bound wins. */
  function Clamp(value: real, lo: real, hi: real): (r: real)
    ensures lo <= hi ==> lo <= r <= hi
    ensures lo <= value <= hi ==> r == value
  {
    var low := if value < lo then lo else value;
    if low > hi then hi else low
  }

  /** `Vector3Lerp(v1, v2, amount) = v1 + amount * (v2 - v1)`. */
  function Lerp3(v1: Vector3, v2: Vector3, amount: real): Vector3
  {
    Add(v1, Scale(Sub(v2, v1), amount))
  }

  /** C's `fminf`/`fmaxf` on the reals. */
  function FMin(a: real, b: real): real { if a <= b then a else b }

  function FMax(a: real, b: real): real { if a >= b then a else b }

  /** Negating a vector does not change its length, so normalization commutes with negation. */
  lemma NormalizeNeg(m: Maths, v: Vector3)
    ensures Length(m, Neg(v)) == Length(m, v)
    ensures Normalize(m, Neg(v)) == Neg(Normalize(m, v))
  {
    assert Dot(Neg(v), Neg(v)) == Dot(v, v);
  }

  /** Helper for Games.LerpSpec: Vector3Lerp reaches its two ends at amounts 0 and 1. */
  lemma Lerp3Ends(v1: Vector3, v2: Vector3)
    ensures Lerp3(v1, v2, 0.0) == v1
    ensures Lerp3(v1, v2, 1.0) == v2
  {
  }
}
