/**
 * The part of the 3D vector type that the camera and the planets use:
 * component-wise addition and subtraction, scaling, and linear
 * interpolation toward a target. Coordinates are exact reals; the
 * floating-point rounding of the original is idealised away.
 */
module Vector3 {

  datatype Vec3 = Vec3(x: real, y: real, z: real)

  const Origin: Vec3 := Vec3(0.0, 0.0, 0.0)

  function Add(u: Vec3, v: Vec3): Vec3
  {
    Vec3(u.x + v.x, u.y + v.y, u.z + v.z)
  }

  function Sub(u: Vec3, v: Vec3): Vec3
  {
    Vec3(u.x - v.x, u.y - v.y, u.z - v.z)
  }

  function Scale(v: Vec3, k: real): Vec3
  {
    Vec3(v.x * k, v.y * k, v.z * k)
  }

  /** `w` lies on the closed segment between `lo` and `hi` (in either order). */
  predicate Between(lo: real, w: real, hi: real)
  {
    (lo <= w <= hi) || (hi <= w <= lo)
  }

  /** One-axis interpolation: the result is `t` of the way from `v` to `target`. */
  function LerpAxis(v: real, target: real, t: real): (r: real)
    ensures r - target == (1.0 - t) * (v - target)
    ensures 0.0 <= t <= 1.0 ==> Between(v, r, target)
  {
    LerpAxisNoOvershoot(v, target, t);
    v + (target - v) * t
  }

  lemma LerpAxisNoOvershoot(v: real, target: real, t: real)
    ensures 0.0 <= t <= 1.0 ==> Between(v, v + (target - v) * t, target)
  {
    if 0.0 <= t <= 1.0 {
      var d := target - v;
      assert d * t - d == d * (t - 1.0);
      if v <= target {
        ProductSigns(d, t);
        ProductSigns(d, 1.0 - t);
      } else {
        ProductSigns(-d, t);
        ProductSigns(-d, 1.0 - t);
      }
    }
  }

  lemma ProductSigns(p: real, q: real)
    requires p >= 0.0 && q >= 0.0
    ensures p * q >= 0.0
  {
  }

  /**
   * Moves `v` the fraction `t` of the way to `target`, in place in the
   * original (`v.lerp(target, t)`). On every axis the remaining distance
   * to the target is multiplied by exactly `1 - t`, so for `t` in [0, 1]
   * the result never overshoots the target.
   */
  function Lerp(v: Vec3, target: Vec3, t: real): (r: Vec3)
    ensures Sub(r, target) == Scale(Sub(v, target), 1.0 - t)
    ensures 0.0 <= t <= 1.0 ==>
      Between(v.x, r.x, target.x) && Between(v.y, r.y, target.y) && Between(v.z, r.z, target.z)
  {
    Vec3(LerpAxis(v.x, target.x, t), LerpAxis(v.y, target.y, t), LerpAxis(v.z, target.z, t))
  }

  /** Relaxing toward the origin with factor `t` is scaling by `1 - t`. */
  lemma LerpToOrigin(v: Vec3, t: real)
    ensures Lerp(v, Origin, t) == Scale(v, 1.0 - t)
  {
  }
}
