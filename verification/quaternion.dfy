/** The AssetStudio `Quaternion` value: four components X, Y, Z, W stored in
    that order, an indexer over them, exact component-wise equality paired
    with a hash, and a looser "same rotation" comparison on the dot product.

    The component type is a parameter `T` wherever the source only stores,
    compares or hashes components; the arithmetic operations (`Dot` and the
    `==`/`!=` operators) are stated over `real`. */
module Quaternions {
  import opened Wrappers
  import Int32Bits

  datatype Quaternion<T> = Quaternion(x: T, y: T, z: T, w: T)

  /** The `ArgumentOutOfRangeException` both indexer accessors throw. */
  datatype IndexError = ArgumentOutOfRange(paramName: string, message: string)

  const InvalidIndex: IndexError := ArgumentOutOfRange("index", "Invalid Quaternion index!")

  /** The components in storage order; the reference the indexer is stated
      against. */
  function Components<T>(q: Quaternion<T>): (s: seq<T>)
    ensures |s| == 4
  {
    [q.x, q.y, q.z, q.w]
  }

  predicate ValidIndex(index: int) {
    0 <= index < 4
  }

  // ---------------------------------------------------------------------
  // Indexer
  // ---------------------------------------------------------------------

  /** `q[index]`: the component at `index`, or the out-of-range error for
      every index other than 0, 1, 2 and 3. */
  function Get<T>(q: Quaternion<T>, index: int): (r: Result<T, IndexError>)
    ensures r.Success? <==> ValidIndex(index)
    ensures r.Success? ==> r.value == Components(q)[index]
    ensures r.Failure? ==> r.error == InvalidIndex
  {
    match index
    case 0 => Success(q.x)
    case 1 => Success(q.y)
    case 2 => Success(q.z)
    case 3 => Success(q.w)
    case _ => Failure(InvalidIndex)
  }

  /** `q[index] = value`: the struct after the assignment, or the
      out-of-range error. On failure nothing is assigned, so the caller's
      value keeps all four of its components. */
  function Set<T>(q: Quaternion<T>, index: int, value: T): (r: Result<Quaternion<T>, IndexError>)
    ensures r.Success? <==> ValidIndex(index)
    ensures r.Success? ==> Components(r.value) == Components(q)[index := value]
    ensures r.Failure? ==> r.error == InvalidIndex
  {
    match index
    case 0 => Success(q.(x := value))
    case 1 => Success(q.(y := value))
    case 2 => Success(q.(z := value))
    case 3 => Success(q.(w := value))
    case _ => Failure(InvalidIndex)
  }

  /** The indexer reaches every field: two quaternions that agree at every
      valid index are the same value. */
  lemma GetDeterminesQuaternion<T>(a: Quaternion<T>, b: Quaternion<T>)
    requires forall i | ValidIndex(i) :: Get(a, i) == Get(b, i)
    ensures a == b
  {
    assert Get(a, 0) == Get(b, 0);
    assert Get(a, 1) == Get(b, 1);
    assert Get(a, 2) == Get(b, 2);
    assert Get(a, 3) == Get(b, 3);
  }

  /** A read after a write sees the written value at the written index and
      the old value everywhere else, including the same error at every
      invalid index. */
  lemma GetAfterSet<T>(q: Quaternion<T>, i: int, v: T, j: int)
    requires ValidIndex(i)
    ensures Get(Set(q, i, v).value, j) == if j == i then Success(v) else Get(q, j)
  {
  }

  /** Writing the value already stored at an index gives back the same
      quaternion. */
  lemma SetCurrentValue<T>(q: Quaternion<T>, i: int)
    requires ValidIndex(i)
    ensures Set(q, i, Get(q, i).value) == Success(q)
  {
  }

  /** Of two writes to the same index only the second is visible. */
  lemma SetTwice<T>(q: Quaternion<T>, i: int, u: T, v: T)
    requires ValidIndex(i)
    ensures Set(Set(q, i, u).value, i, v) == Set(q, i, v)
  {
  }

  // ---------------------------------------------------------------------
  // Exact equality and hash
  // ---------------------------------------------------------------------

  ghost predicate Reflexive<T(!new)>(eq: (T, T) -> bool) {
    forall a :: eq(a, a)
  }

  ghost predicate Symmetric<T(!new)>(eq: (T, T) -> bool) {
    forall a, b :: eq(a, b) ==> eq(b, a)
  }

  ghost predicate Transitive<T(!new)>(eq: (T, T) -> bool) {
    forall a, b, c :: eq(a, b) && eq(b, c) ==> eq(a, c)
  }

  /** A component hash agrees with a component equality when equal
      components always hash alike. */
  ghost predicate HashRespects<T(!new)>(hash: T -> bv32, eq: (T, T) -> bool) {
    forall a, b :: eq(a, b) ==> hash(a) == hash(b)
  }

  /** The four field comparisons that `Equals(Quaternion)` makes agree with
      a comparison at every index the indexer accepts. */
  lemma FieldsAgreeIffIndicesAgree<T>(a: Quaternion<T>, b: Quaternion<T>, eq: (T, T) -> bool)
    ensures (eq(a.x, b.x) && eq(a.y, b.y) && eq(a.z, b.z) && eq(a.w, b.w))
        <==> forall i | ValidIndex(i) :: eq(Get(a, i).value, Get(b, i).value)
  {
    if forall i | ValidIndex(i) :: eq(Get(a, i).value, Get(b, i).value) {
      assert eq(Get(a, 0).value, Get(b, 0).value);
      assert eq(Get(a, 1).value, Get(b, 1).value);
      assert eq(Get(a, 2).value, Get(b, 2).value);
      assert eq(Get(a, 3).value, Get(b, 3).value);
    }
    if eq(a.x, b.x) && eq(a.y, b.y) && eq(a.z, b.z) && eq(a.w, b.w) {
      forall i | ValidIndex(i)
        ensures eq(Get(a, i).value, Get(b, i).value)
      {
        assert Get(a, i).value == Components(a)[i];
      }
    }
  }

  /** `Equals(Quaternion)`: holds exactly when the components at every valid
      index are `eq`-equal. `eq` stands for the component type's own
      `Equals`, which for `float` is not the `==` operator. */
  function ExactEquals<T>(a: Quaternion<T>, b: Quaternion<T>, eq: (T, T) -> bool): (r: bool)
    ensures r <==> forall i | ValidIndex(i) :: eq(Get(a, i).value, Get(b, i).value)
  {
    FieldsAgreeIffIndicesAgree(a, b, eq);
    eq(a.x, b.x) && eq(a.y, b.y) && eq(a.z, b.z) && eq(a.w, b.w)
  }

  /** The run-time value `Equals(object)` receives: a null reference, a boxed
      quaternion, or an object of any other type. */
  datatype Object<T> = Null | Boxed(unboxed: Quaternion<T>) | OtherObject

  /** `Equals(object)`: true exactly when the argument is a boxed quaternion
      whose components are `eq`-equal to those of `a` at every valid index;
      null and every other type give false rather than an error. */
  function EqualsObject<T>(a: Quaternion<T>, other: Object<T>, eq: (T, T) -> bool): (r: bool)
    ensures r <==> other.Boxed? && forall i | ValidIndex(i) :: eq(Get(a, i).value, Get(other.unboxed, i).value)
  {
    if !other.Boxed? then false else ExactEquals(a, other.unboxed, eq)
  }

  lemma ExactEqualsReflexive<T(!new)>(a: Quaternion<T>, eq: (T, T) -> bool)
    requires Reflexive(eq)
    ensures ExactEquals(a, a, eq)
    ensures EqualsObject(a, Boxed(a), eq)
  {
  }

  lemma ExactEqualsSymmetric<T(!new)>(a: Quaternion<T>, b: Quaternion<T>, eq: (T, T) -> bool)
    requires Symmetric(eq)
    ensures ExactEquals(a, b, eq) <==> ExactEquals(b, a, eq)
    ensures EqualsObject(a, Boxed(b), eq) <==> EqualsObject(b, Boxed(a), eq)
  {
  }

  lemma ExactEqualsTransitive<T(!new)>(a: Quaternion<T>, b: Quaternion<T>, c: Quaternion<T>, eq: (T, T) -> bool)
    requires Transitive(eq)
    requires ExactEquals(a, b, eq) && ExactEquals(b, c, eq)
    ensures ExactEquals(a, c, eq)
  {
  }

  /** `GetHashCode`: the four component hashes combined as
      `h(X) ^ (h(Y) << 2) ^ (h(Z) >> 2) ^ (h(W) >> 1)` on 32-bit `int`s, with
      C#'s arithmetic right shift. `hash` stands for `float.GetHashCode`.
      Because that shift keeps the sign, the hash is negative exactly when an
      odd number of X's hash, Y's shifted hash, Z's hash and W's hash are. */
  function GetHashCode<T>(q: Quaternion<T>, hash: T -> bv32): (r: bv32)
    ensures Int32Bits.IsNegative(r) <==>
      (((Int32Bits.IsNegative(hash(q.x)) != Int32Bits.IsNegative(hash(q.y) << 2))
        != Int32Bits.IsNegative(hash(q.z))) != Int32Bits.IsNegative(hash(q.w)))
  {
    Int32Bits.ShiftRightFillsWithSign(hash(q.z), 2);
    Int32Bits.ShiftRightFillsWithSign(hash(q.w), 1);
    hash(q.x) ^ (hash(q.y) << 2) ^ Int32Bits.ShiftRight(hash(q.z), 2) ^ Int32Bits.ShiftRight(hash(q.w), 1)
  }

  /** The hash is a function of the component hashes alone. */
  lemma HashDependsOnlyOnComponentHashes<T>(a: Quaternion<T>, b: Quaternion<T>, hash: T -> bv32)
    requires forall i | 0 <= i < 4 :: hash(Components(a)[i]) == hash(Components(b)[i])
    ensures GetHashCode(a, hash) == GetHashCode(b, hash)
  {
    assert hash(Components(a)[0]) == hash(Components(b)[0]);
    assert hash(Components(a)[1]) == hash(Components(b)[1]);
    assert hash(Components(a)[2]) == hash(Components(b)[2]);
    assert hash(Components(a)[3]) == hash(Components(b)[3]);
  }

  /** X enters the combination unshifted, so a change of X's hash always
      changes the quaternion's hash. */
  lemma HashSeesX<T>(q: Quaternion<T>, v: T, hash: T -> bv32)
    requires hash(v) != hash(q.x)
    ensures GetHashCode(q.(x := v), hash) != GetHashCode(q, hash)
  {
  }

  /** The contract between `Equals` and `GetHashCode`: when the component
      hash agrees with the component equality, quaternions that are `Equals`,
      through either overload, have the same hash code. */
  lemma HashConsistentWithEquals<T(!new)>(a: Quaternion<T>, b: Quaternion<T>, eq: (T, T) -> bool, hash: T -> bv32)
    requires HashRespects(hash, eq)
    ensures ExactEquals(a, b, eq) ==> GetHashCode(a, hash) == GetHashCode(b, hash)
    ensures EqualsObject(a, Boxed(b), eq) ==> GetHashCode(a, hash) == GetHashCode(b, hash)
  {
    if ExactEquals(a, b, eq) {
      HashDependsOnlyOnComponentHashes(a, b, hash);
    }
  }

  // ---------------------------------------------------------------------
  // Dot product and the `==` / `!=` operators
  // ---------------------------------------------------------------------

  /** `kEpsilon`, the tolerance of the `==` operator. */
  const KEpsilon: real := 0.000001

  /** The squared length of `q`, written without `Dot`. */
  function SquaredNorm(q: Quaternion<real>): (n: real)
    ensures n >= 0.0
  {
    q.x * q.x + q.y * q.y + q.z * q.z + q.w * q.w
  }

  /** The squared Euclidean distance between `a` and `b`. */
  function SquaredDistance(a: Quaternion<real>, b: Quaternion<real>): (d: real)
    ensures d >= 0.0
  {
    (a.x - b.x) * (a.x - b.x) + (a.y - b.y) * (a.y - b.y)
    + (a.z - b.z) * (a.z - b.z) + (a.w - b.w) * (a.w - b.w)
  }

  predicate IsUnit(q: Quaternion<real>) {
    SquaredNorm(q) == 1.0
  }

  /** `Dot`: the four-dimensional dot product. By the polarization identity
      it is half of the two squared lengths minus the squared distance, and
      a quaternion's dot product with itself is its squared length. */
  function Dot(a: Quaternion<real>, b: Quaternion<real>): (r: real)
    ensures 2.0 * r == SquaredNorm(a) + SquaredNorm(b) - SquaredDistance(a, b)
    ensures a == b ==> r == SquaredNorm(a)
  {
    assert (a.x - b.x) * (a.x - b.x) == a.x * a.x - 2.0 * (a.x * b.x) + b.x * b.x;
    assert (a.y - b.y) * (a.y - b.y) == a.y * a.y - 2.0 * (a.y * b.y) + b.y * b.y;
    assert (a.z - b.z) * (a.z - b.z) == a.z * a.z - 2.0 * (a.z * b.z) + b.z * b.z;
    assert (a.w - b.w) * (a.w - b.w) == a.w * a.w - 2.0 * (a.w * b.w) + b.w * b.w;
    a.x * b.x + a.y * b.y + a.z * b.z + a.w * b.w
  }

  /** `IsEqualUsingDot`: a dot product of 1 or more is accepted, and so is
      every one in the tolerance band just below 1; one at or below
      `1 - kEpsilon` is rejected, so nothing near -1 is ever accepted. */
  predicate IsEqualUsingDot(dot: real): (r: bool)
    ensures dot >= 1.0 ==> r
    ensures 1.0 - KEpsilon < dot < 1.0 ==> r
    ensures dot <= 1.0 - KEpsilon ==> !r
    ensures dot <= 0.0 ==> !r
  {
    dot > 1.0 - KEpsilon
  }

  /** `operator ==`: stated as a bound on the distance between the two
      quaternions; for unit quaternions they are `==` exactly when their
      squared distance is below `2 * kEpsilon`. */
  function ApproxEqual(lhs: Quaternion<real>, rhs: Quaternion<real>): (r: bool)
    ensures r <==> SquaredDistance(lhs, rhs) < SquaredNorm(lhs) + SquaredNorm(rhs) - 2.0 + 2.0 * KEpsilon
    ensures IsUnit(lhs) && IsUnit(rhs) ==> (r <==> SquaredDistance(lhs, rhs) < 2.0 * KEpsilon)
  {
    IsEqualUsingDot(Dot(lhs, rhs))
  }

  /** `operator !=`: the negation of `==`; for unit quaternions it holds
      exactly when their squared distance is at least `2 * kEpsilon`. */
  function ApproxNotEqual(lhs: Quaternion<real>, rhs: Quaternion<real>): (r: bool)
    ensures r <==> SquaredDistance(lhs, rhs) >= SquaredNorm(lhs) + SquaredNorm(rhs) - 2.0 + 2.0 * KEpsilon
    ensures IsUnit(lhs) && IsUnit(rhs) ==> (r <==> SquaredDistance(lhs, rhs) >= 2.0 * KEpsilon)
  {
    !ApproxEqual(lhs, rhs)
  }

  /** The component-wise negation, which represents the same rotation. */
  function Negate(q: Quaternion<real>): (n: Quaternion<real>)
    ensures SquaredNorm(n) == SquaredNorm(q)
  {
    Quaternion(-q.x, -q.y, -q.z, -q.w)
  }

  lemma ApproxEqualSymmetric(a: Quaternion<real>, b: Quaternion<real>)
    ensures ApproxEqual(a, b) <==> ApproxEqual(b, a)
    ensures ApproxNotEqual(a, b) <==> ApproxNotEqual(b, a)
  {
  }

  /** A unit quaternion is `==` to itself (its dot product with itself is 1)
      and not `==` to its own negation (dot product -1), although both
      represent the same rotation. */
  lemma UnitQuaternionAndItsNegation(q: Quaternion<real>)
    requires IsUnit(q)
    ensures ApproxEqual(q, q)
    ensures !ApproxEqual(q, Negate(q)) && ApproxNotEqual(q, Negate(q))
    ensures Dot(q, Negate(q)) == -1.0
  {
    assert q.x * -q.x == -(q.x * q.x);
    assert q.y * -q.y == -(q.y * q.y);
    assert q.z * -q.z == -(q.z * q.z);
    assert q.w * -q.w == -(q.w * q.w);
    assert Dot(q, Negate(q)) == q.x * -q.x + q.y * -q.y + q.z * -q.z + q.w * -q.w;
    assert Dot(q, Negate(q)) == -SquaredNorm(q);
  }

  /** `==` is not reflexive: for any reflexive component equality, the zero
      quaternion (the struct's default value) is `Equals` itself but not `==`
      itself. */
  lemma ApproxEqualNotReflexive(eq: (real, real) -> bool)
    requires Reflexive(eq)
    ensures exists q :: ExactEquals(q, q, eq) && !ApproxEqual(q, q)
  {
    var zero := Quaternion(0.0, 0.0, 0.0, 0.0);
    assert eq(0.0, 0.0);
    assert ExactEquals(zero, zero, eq) && !ApproxEqual(zero, zero);
  }

  /** `==` is not transitive, so it is no equivalence relation at all. */
  lemma ApproxEqualNotTransitive()
    ensures exists a, b, c :: ApproxEqual(a, b) && ApproxEqual(b, c) && !ApproxEqual(a, c)
  {
    var a := Quaternion(1.0, 0.0, 0.0, 0.0);
    var b := Quaternion(1.0, 1.0, 0.0, 0.0);
    var c := Quaternion(0.0, 1.0, 0.0, 0.0);
    assert ApproxEqual(a, b) && ApproxEqual(b, c) && !ApproxEqual(a, c);
  }

  /** `==` cannot serve as the key equality of a hashed container: for any
      component hash that tells 1 and 2 apart there are quaternions that are
      `==` yet hash differently. */
  lemma ApproxEqualDisagreesWithHash(hash: real -> bv32)
    requires hash(1.0) != hash(2.0)
    ensures exists a, b :: ApproxEqual(a, b) && GetHashCode(a, hash) != GetHashCode(b, hash)
  {
    var a := Quaternion(1.0, 0.0, 0.0, 0.0);
    var b := a.(x := 2.0);
    HashSeesX(a, 2.0, hash);
    assert ApproxEqual(a, b) && GetHashCode(a, hash) != GetHashCode(b, hash);
  }
}
