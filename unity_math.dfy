/**
 * The parts of UnityEngine's Mathf and Vector3 that the combat code relies on,
 * with `float` modelled as `real` (no rounding) and C#'s `int` as a 32-bit
 * two's-complement integer where wrap-around is visible.
 */
module UnityMath {

  /** Vector3, with real components. */
  datatype Vec3 = Vec3(x: real, y: real, z: real)
  {
    function Plus(o: Vec3): Vec3 { Vec3(x + o.x, y + o.y, z + o.z) }
    function Minus(o: Vec3): Vec3 { Vec3(x - o.x, y - o.y, z - o.z) }
  }

  const Zero: Vec3 := Vec3(0.0, 0.0, 0.0)

  /** Square of Vector3.Distance; comparing squares preserves every comparison of distances. */
  function DistSq(p: Vec3, q: Vec3): real
  {
    var d := p.Minus(q);
    d.x * d.x + d.y * d.y + d.z * d.z
  }

  /** Mathf.Abs */
  function Abs(a: real): (r: real)
    ensures r >= 0.0 && (r == a || r == -a)
  {
    if a < 0.0 then -a else a
  }

  /** Mathf.Max(a, b) for two floats: `a > b ? a : b`. */
  function Max(a: real, b: real): (r: real)
    ensures r >= a && r >= b && (r == a || r == b)
  {
    if a > b then a else b
  }

  /** Mathf.Clamp(float value, float min, float max): the lower bound is tested first. */
  function Clamp(value: real, min: real, max: real): (r: real)
    ensures min <= max ==> min <= r <= max
    ensures min <= value <= max ==> r == value
    ensures value < min ==> r == min
    ensures min <= max < value ==> r == max
  {
    if value < min then min else if value > max then max else value
  }

  /**
   * Mathf.Clamp(int value, int min, int max): Unity's separate int overload,
   * with the same branch order as the float one. It is kept apart because the
   * core clamps int quantities (the patrol index, ammunition) with it, and
   * Dafny's int and real are distinct types.
   */
  function ClampInt(value: int, min: int, max: int): (r: int)
    ensures min <= max ==> min <= r <= max
    ensures min <= value <= max ==> r == value
    ensures value < min ==> r == min
    ensures min <= max < value ==> r == max
  {
    if value < min then min else if value > max then max else value
  }

  /** Mathf.Clamp01 */
  function Clamp01(value: real): (r: real)
    ensures 0.0 <= r <= 1.0
    ensures 0.0 <= value <= 1.0 ==> r == value
    ensures value <= 0.0 ==> r == 0.0
    ensures value >= 1.0 ==> r == 1.0
  {
    if value < 0.0 then 0.0 else if value > 1.0 then 1.0 else value
  }

  /** Mathf.Lerp, `a + (b - a) * Clamp01(t)`, written with the clamp's three cases. */
  function Lerp(a: real, b: real, t: real): (r: real)
    ensures t <= 0.0 ==> r == a
    ensures t >= 1.0 ==> r == b
    ensures a <= b ==> a <= r <= b
    ensures b <= a ==> b <= r <= a
  {
    if t <= 0.0 then a
    else if t >= 1.0 then b
    else
      ScaleWithinUnit(if a <= b then b - a else a - b, t);
      a + (b - a) * t
  }

  /** Scaling a non-negative span by a fraction in [0, 1] stays within the span. */
  lemma ScaleWithinUnit(span: real, u: real)
    requires span >= 0.0 && 0.0 <= u <= 1.0
    ensures 0.0 <= span * u <= span
    ensures span * u == -((-span) * u)
  {
    assert span * (1.0 - u) >= 0.0;
  }

  const Int32Min: int := -0x8000_0000
  const Int32Max: int := 0x7FFF_FFFF

  predicate IsInt32(n: int) { Int32Min <= n <= Int32Max }

  /** The value C#'s unchecked `int` arithmetic keeps of an exact result. */
  function Wrap32(n: int): (r: int)
    ensures IsInt32(r)
    ensures IsInt32(n) ==> r == n
    ensures (r - n) % 0x1_0000_0000 == 0
  {
    (n - Int32Min) % 0x1_0000_0000 + Int32Min
  }
}
