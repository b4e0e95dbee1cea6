/** `QuaternionToEuler`: the conversion of a quaternion to Euler angles.

    The trigonometric primitives and the value of pi are parameters (`Trig`),
    so the model fixes which primitive is applied to which argument, which
    branch runs and how its result is adjusted, but not the numeric values of
    the angles. */
module Euler {
  import opened Quaternions

  /** The three-float result record. */
  datatype Vector3 = Vector3(x: real, y: real, z: real)

  /** `Math.Atan2`, `Math.Asin` and `Math.PI`. */
  datatype Trig = Trig(atan2: (real, real) -> real, asin: real -> real, pi: real)

  /** `Rad2Deg`, the radians-to-degrees factor, as the source writes it. */
  const Rad2Deg: real := 57.29578

  /** The gimbal-lock threshold on the singularity test. */
  const PoleThreshold: real := 0.499

  /** The three branches of the conversion. */
  datatype Branch = NorthPole | SouthPole | General

  /** The singularity test `X*Y + Z*W`. Twice its value is the argument
      the general branch hands to `asin`, and it does not change when every
      component is negated. */
  function SingularityTest(q: Quaternion<real>): (t: real)
    ensures 2.0 * t == 2.0 * q.x * q.y + 2.0 * q.z * q.w
    ensures t == (-q.x) * (-q.y) + (-q.z) * (-q.w)
  {
    q.x * q.y + q.z * q.w
  }

  /** Which branch the conversion takes: exactly one of the three, decided
      by comparing the test value with the threshold on either side. */
  function BranchOf(q: Quaternion<real>): (b: Branch)
    ensures b == NorthPole <==> SingularityTest(q) > PoleThreshold
    ensures b == SouthPole <==> SingularityTest(q) < -PoleThreshold
    ensures b == General <==> -PoleThreshold <= SingularityTest(q) <= PoleThreshold
  {
    var test := SingularityTest(q);
    if test > PoleThreshold then NorthPole
    else if test < -PoleThreshold then SouthPole
    else General
  }

  /** The one-shot adjustment of a general-branch angle: a negative angle has
      360 added once, anything else is left as it is. */
  function AddTurnIfNegative(angle: real): (r: real)
    ensures r == angle || r == angle + 360.0
    ensures r >= 0.0 <==> angle >= -360.0
    ensures r < 360.0 <==> angle < 360.0
    ensures angle >= 0.0 ==> r == angle
    ensures angle < 0.0 ==> r == angle + 360.0
  {
    if angle < 0.0 then angle + 360.0 else angle
  }

  /** The two `atan2` arguments of the general-branch X angle. For a unit
      quaternion the cosine term is the homogeneous rotation-matrix entry
      `W*W + Y*Y - X*X - Z*Z`, and without a Y or Z part the sine term is
      `2*X*W`. */
  function XSine(q: Quaternion<real>): (s: real)
    ensures q.y == 0.0 || q.z == 0.0 ==> s == 2.0 * q.x * q.w
  {
    2.0 * q.x * q.w - 2.0 * q.y * q.z
  }

  function XCosine(q: Quaternion<real>): (c: real)
    ensures IsUnit(q) ==> c == q.w * q.w + q.y * q.y - q.x * q.x - q.z * q.z
  {
    1.0 - 2.0 * q.x * q.x - 2.0 * q.z * q.z
  }

  /** The two `atan2` arguments of the general-branch Y angle: those of the
      X angle with the roles of X and Y swapped. */
  function YSine(q: Quaternion<real>): (s: real)
    ensures s == XSine(q.(x := q.y, y := q.x))
    ensures q.x == 0.0 || q.z == 0.0 ==> s == 2.0 * q.y * q.w
  {
    2.0 * q.y * q.w - 2.0 * q.x * q.z
  }

  function YCosine(q: Quaternion<real>): (c: real)
    ensures c == XCosine(q.(x := q.y, y := q.x))
    ensures IsUnit(q) ==> c == q.w * q.w + q.x * q.x - q.y * q.y - q.z * q.z
  {
    1.0 - 2.0 * q.y * q.y - 2.0 * q.z * q.z
  }

  /** The three general-branch angles in degrees, before the adjustment.
      For a unit quaternion (sin(t/2), 0, 0, cos(t/2)), a rotation by t
      about X alone, the X angle is `atan2(2*X*W, W*W - X*X)`, that is
      `atan2(sin t, cos t)`, and likewise for Y. */
  function RawX(q: Quaternion<real>, trig: Trig): (r: real)
    ensures IsUnit(q) && q.y == 0.0 && q.z == 0.0 ==>
      r == Rad2Deg * trig.atan2(2.0 * q.x * q.w, q.w * q.w - q.x * q.x)
  {
    Rad2Deg * trig.atan2(XSine(q), XCosine(q))
  }

  function RawY(q: Quaternion<real>, trig: Trig): (r: real)
    ensures r == RawX(q.(x := q.y, y := q.x), trig)
    ensures IsUnit(q) && q.x == 0.0 && q.z == 0.0 ==>
      r == Rad2Deg * trig.atan2(2.0 * q.y * q.w, q.w * q.w - q.y * q.y)
  {
    Rad2Deg * trig.atan2(YSine(q), YCosine(q))
  }

  /** The Z angle is `asin` of twice the singularity test. It ignores a
      sign flip of the whole quaternion, and in the general branch `asin`
      receives an argument strictly inside (-1, 1). */
  function RawZ(q: Quaternion<real>, trig: Trig): (r: real)
    ensures r == Rad2Deg * trig.asin(2.0 * SingularityTest(Negate(q)))
    ensures BranchOf(q) == General ==> -1.0 < 2.0 * SingularityTest(q) < 1.0
  {
    assert SingularityTest(Negate(q)) == (-q.x) * (-q.y) + (-q.z) * (-q.w);
    Rad2Deg * trig.asin(2.0 * q.x * q.y + 2.0 * q.z * q.w)
  }

  /** `QuaternionToEuler`. The two pole branches return X = 0 and a Z of
      plus or minus pi/2 in radians, with no conversion to degrees and no
      adjustment; the general branch converts each angle to degrees and adds
      one turn to each negative one. The mixed units are the source's
      behaviour and are kept. */
  function ToEuler(q: Quaternion<real>, trig: Trig): (v: Vector3)
    ensures BranchOf(q) == NorthPole ==> v == Vector3(0.0, 2.0 * trig.atan2(q.x, q.w), trig.pi / 2.0)
    ensures BranchOf(q) == SouthPole ==> v == Vector3(0.0, -2.0 * trig.atan2(q.x, q.w), -trig.pi / 2.0)
    ensures BranchOf(q) == General ==>
      && (v.x == RawX(q, trig) <==> RawX(q, trig) >= 0.0)
      && (v.y == RawY(q, trig) <==> RawY(q, trig) >= 0.0)
      && (v.z == RawZ(q, trig) <==> RawZ(q, trig) >= 0.0)
      && (v.x == RawX(q, trig) + 360.0 <==> RawX(q, trig) < 0.0)
      && (v.y == RawY(q, trig) + 360.0 <==> RawY(q, trig) < 0.0)
      && (v.z == RawZ(q, trig) + 360.0 <==> RawZ(q, trig) < 0.0)
  {
    var test := SingularityTest(q);
    if test > PoleThreshold then
      Vector3(0.0, 2.0 * trig.atan2(q.x, q.w), trig.pi / 2.0)
    else if test < -PoleThreshold then
      Vector3(0.0, -2.0 * trig.atan2(q.x, q.w), -trig.pi / 2.0)
    else
      Vector3(AddTurnIfNegative(RawX(q, trig)), AddTurnIfNegative(RawY(q, trig)), AddTurnIfNegative(RawZ(q, trig)))
  }

  /** Every `atan2` argument of the general branch is a sum of products of
      two components, so negating all four components leaves it unchanged. */
  lemma ArgumentsIgnoreSign(q: Quaternion<real>)
    ensures XSine(Negate(q)) == XSine(q) && XCosine(Negate(q)) == XCosine(q)
    ensures YSine(Negate(q)) == YSine(q) && YCosine(Negate(q)) == YCosine(q)
  {
  }

  /** A quaternion and its negation represent the same rotation. They take
      the same branch, and in the general branch they convert to the same
      angles, since every term there is a product of two components. This is
      unlike the `==` operator, which does not treat them as equal. */
  lemma GeneralBranchIgnoresSign(q: Quaternion<real>, trig: Trig)
    ensures BranchOf(Negate(q)) == BranchOf(q)
    ensures BranchOf(q) == General ==> ToEuler(Negate(q), trig) == ToEuler(q, trig)
  {
    var n := Negate(q);
    assert SingularityTest(n) == SingularityTest(q);
    ArgumentsIgnoreSign(q);
    assert RawZ(n, trig) == RawZ(q, trig);
  }

  /** The adjustment brings a general-branch angle into [0, 360) exactly
      when the raw angle lies in [-360, 360): nothing below -360 or at or
      above 360 is wrapped further. */
  lemma GeneralBranchRange(q: Quaternion<real>, trig: Trig)
    requires BranchOf(q) == General
    ensures 0.0 <= ToEuler(q, trig).x < 360.0 <==> -360.0 <= RawX(q, trig) < 360.0
    ensures 0.0 <= ToEuler(q, trig).y < 360.0 <==> -360.0 <= RawY(q, trig) < 360.0
    ensures 0.0 <= ToEuler(q, trig).z < 360.0 <==> -360.0 <= RawZ(q, trig) < 360.0
  {
  }

  /** The general branch only runs when `asin` receives an argument strictly
      inside (-1, 1): that argument is twice the singularity test, which the
      branch bounds by the threshold. */
  lemma GeneralBranchAsinArgumentInDomain(q: Quaternion<real>)
    requires BranchOf(q) == General
    ensures -1.0 < 2.0 * q.x * q.y + 2.0 * q.z * q.w < 1.0
  {
  }

  /** The identity rotation takes the general branch (its test value is 0)
      and converts to (0, 0, 0) degrees, given the primitives' values at the
      arguments it produces. */
  lemma IdentityToEuler(trig: Trig)
    requires trig.atan2(0.0, 1.0) == 0.0 && trig.asin(0.0) == 0.0
    ensures BranchOf(Quaternion(0.0, 0.0, 0.0, 1.0)) == General
    ensures ToEuler(Quaternion(0.0, 0.0, 0.0, 1.0), trig) == Vector3(0.0, 0.0, 0.0)
  {
  }

  /** (0.5, 0.5, 0.5, 0.5) has test value 0.5 and takes the north-pole
      branch: X is 0 and Z is pi/2, both in radians. */
  lemma HalvesTakeNorthPole(trig: Trig)
    ensures BranchOf(Quaternion(0.5, 0.5, 0.5, 0.5)) == NorthPole
    ensures ToEuler(Quaternion(0.5, 0.5, 0.5, 0.5), trig) == Vector3(0.0, 2.0 * trig.atan2(0.5, 0.5), trig.pi / 2.0)
  {
  }

  /** The pole branches are mirror images: negating X and Z moves the test
      value to the other side, and when `atan2` is odd in its first argument
      the south branch gives back the same Y and the opposite Z. */
  lemma PolesMirror(q: Quaternion<real>, trig: Trig)
    requires BranchOf(q) == NorthPole
    requires trig.atan2(-q.x, q.w) == -trig.atan2(q.x, q.w)
    ensures BranchOf(q.(x := -q.x, z := -q.z)) == SouthPole
    ensures ToEuler(q.(x := -q.x, z := -q.z), trig)
         == Vector3(0.0, ToEuler(q, trig).y, -ToEuler(q, trig).z)
  {
    var m := q.(x := -q.x, z := -q.z);
    assert SingularityTest(m) == -SingularityTest(q) by {
      assert SingularityTest(m) == (-q.x) * q.y + (-q.z) * q.w;
      assert (-q.x) * q.y == -(q.x * q.y);
      assert (-q.z) * q.w == -(q.z * q.w);
    }
  }
}
