# AssetStudio Quaternion, modelled in Dafny

This project models AssetStudio's `Quaternion` value type. The type has four
components X, Y, Z, W stored in that order. The model covers its operations:

- an indexer that maps 0..3 to the components and throws
  `ArgumentOutOfRangeException` for any other index;
- exact component-wise `Equals`, with its `object` overload, and the
  `GetHashCode` that goes with it;
- the `==`/`!=` operators, which decide equality by a threshold on the
  four-dimensional dot product;
- `QuaternionToEuler`, which has two gimbal-lock branches and one general
  branch.

Files:

- `quaternion.dfy`, module `Quaternions`: the value, the indexer, both
  equalities, the hash, `Dot`, and the lemmas relating them.
- `euler.dfy`, module `Euler`: `Vector3`, the branch choice and the
  conversion.
- `int32_bits.dfy`, module `Int32Bits`: the two's-complement behaviour of C#
  `int` that the hash uses. This includes `>>` as an arithmetic shift. Dafny's
  `>>` on `bv32` is a logical shift, so the sign fill is written out.
- `wrappers.dfy`, module `Wrappers`: the `Result` type for the indexer's
  exception.

Modelling choices:

- The component type is a type parameter wherever the source only stores,
  compares or hashes components.
- The component's `Equals` is a parameter `eq`, and its `GetHashCode` is a
  parameter `hash` that returns the 32 bits of a C# `int`.
- `Dot`, `==`/`!=` and the Euler conversion work over `real`.
- `Math.Atan2`, `Math.Asin` and `Math.PI` are fields of a `Trig` parameter.
  The model fixes which primitive gets which argument, which branch runs and
  how its result is adjusted. It does not fix the numeric values of the angles.
- The indexer setter mutates the struct in place. Here `Set` returns the
  updated value, or the error. On the error path no value is produced, so the
  caller's quaternion keeps all four of its components.
- `float.Equals` (line 66), unlike float `==`, treats NaN as equal to NaN.
  So component equality is the abstract relation `eq`, not `==` on the
  component type.

## Model

| member | source | states |
|---|---|---|
| `Quaternions.Get` | AssetStudio/Math/Quaternion.cs:27-37 | succeeds exactly for indices 0..3 and returns X, Y, Z, W in storage order; every other `int` gives the out-of-range error |
| `Quaternions.Set` | AssetStudio/Math/Quaternion.cs:39-49 | succeeds exactly for indices 0..3; the result's components are the old ones with only the indexed one replaced; every other index gives the out-of-range error |
| `Quaternions.GetDeterminesQuaternion` | AssetStudio/Math/Quaternion.cs:25-50 | the indexer reaches every field: quaternions that agree at all four indices are equal |
| `Quaternions.GetAfterSet` | AssetStudio/Math/Quaternion.cs:39-49 | after a valid write, reading the written index gives the new value, and every other index (valid or not) reads as before |
| `Quaternions.SetCurrentValue` | AssetStudio/Math/Quaternion.cs:39-49 | writing back the value read at an index leaves the quaternion unchanged |
| `Quaternions.SetTwice` | AssetStudio/Math/Quaternion.cs:39-49 | of two writes to the same index only the last is visible |
| `Quaternions.FieldsAgreeIffIndicesAgree` | AssetStudio/Math/Quaternion.cs:64-67 | the four field comparisons `Equals` makes hold together exactly when the components agree at every index the indexer accepts |
| `Quaternions.ExactEquals` | AssetStudio/Math/Quaternion.cs:64-67 | `Equals(Quaternion)` holds if and only if the components at every valid index are equal under the component equality |
| `Quaternions.EqualsObject` | AssetStudio/Math/Quaternion.cs:57-62 | `Equals(object)` holds exactly when the argument is a boxed quaternion whose components are equal index by index; null and every other type give false, not an error |
| `Quaternions.ExactEqualsReflexive` | AssetStudio/Math/Quaternion.cs:57-67 | a reflexive component equality makes both `Equals` overloads reflexive |
| `Quaternions.ExactEqualsSymmetric` | AssetStudio/Math/Quaternion.cs:57-67 | a symmetric component equality makes both `Equals` overloads symmetric |
| `Quaternions.ExactEqualsTransitive` | AssetStudio/Math/Quaternion.cs:64-67 | a transitive component equality makes `Equals` transitive |
| `Quaternions.GetHashCode` | AssetStudio/Math/Quaternion.cs:52-55 | because C#'s `>>` keeps the sign, the hash is negative exactly when an odd number of X's hash, Y's hash shifted left by 2, Z's hash and W's hash are negative |
| `Quaternions.HashDependsOnlyOnComponentHashes` | AssetStudio/Math/Quaternion.cs:52-55 | quaternions whose components hash alike at every index have the same hash code |
| `Quaternions.HashSeesX` | AssetStudio/Math/Quaternion.cs:54 | changing X's hash always changes the quaternion's hash |
| `Quaternions.HashConsistentWithEquals` | AssetStudio/Math/Quaternion.cs:52-67 | if equal components hash alike, then quaternions that are `Equals` (either overload) have equal `GetHashCode` |
| `Int32Bits.ShiftRight` | AssetStudio/Math/Quaternion.cs:54 | C# `>>` on `int`: equals the logical shift on non-negative values and fills the vacated high bits with ones on negative values |
| `Int32Bits.ShiftRightKeepsHighBits` | AssetStudio/Math/Quaternion.cs:54 | shifting the result back left recovers the argument with its low `k` bits cleared, so no other bit is lost |
| `Int32Bits.ShiftRightFillsWithSign` | AssetStudio/Math/Quaternion.cs:54 | the result has the argument's sign, and its top `k + 1` bits are all copies of that sign |
| `Quaternions.Dot` | AssetStudio/Math/Quaternion.cs:101-104 | the dot product is half of the two squared lengths minus the squared distance (polarization identity); with itself it is the squared length |
| `Quaternions.IsEqualUsingDot` | AssetStudio/Math/Quaternion.cs:106-109 | a dot product of 1 or more is accepted, and so is every one in the band (1 - `kEpsilon`, 1); one at or below `1 - kEpsilon`, and so anything near -1, is rejected |
| `Quaternions.ApproxEqual` | AssetStudio/Math/Quaternion.cs:111-114 | `==` holds exactly when the squared distance is below the two squared lengths minus 2 plus `2·kEpsilon`; for unit quaternions, exactly when the squared distance is below `2·kEpsilon` |
| `Quaternions.ApproxNotEqual` | AssetStudio/Math/Quaternion.cs:116-119 | `!=` holds exactly when that squared-distance bound fails; for unit quaternions, exactly when the squared distance is at least `2·kEpsilon` |
| `Quaternions.ApproxEqualSymmetric` | AssetStudio/Math/Quaternion.cs:101-119 | `==` and `!=` do not depend on the order of their operands |
| `Quaternions.UnitQuaternionAndItsNegation` | AssetStudio/Math/Quaternion.cs:101-121 | a unit quaternion is `==` to itself, but its dot product with its negation is -1, so it is `!=` to the negation even though both represent the same rotation |
| `Quaternions.ApproxEqualNotReflexive` | AssetStudio/Math/Quaternion.cs:101-114 | for any reflexive component equality, some quaternion (the zero default) is `Equals` to itself but not `==` to itself |
| `Quaternions.ApproxEqualNotTransitive` | AssetStudio/Math/Quaternion.cs:101-114 | `==` is not transitive: there are a, b, c with a == b and b == c but not a == c |
| `Quaternions.ApproxEqualDisagreesWithHash` | AssetStudio/Math/Quaternion.cs:52-55 | for any component hash that tells 1 and 2 apart, some `==`-equal quaternions have different hash codes, so `==` cannot be a hashed-container key equality |
| `Euler.SingularityTest` | AssetStudio/Math/Quaternion.cs:73 | twice the test value is the argument the general branch gives `asin`, and the test is unchanged when all components are negated |
| `Euler.BranchOf` | AssetStudio/Math/Quaternion.cs:73-88 | exactly one branch is chosen: north if `X*Y + Z*W > 0.499`, south if it is `< -0.499`, general otherwise |
| `Euler.AddTurnIfNegative` | AssetStudio/Math/Quaternion.cs:94-96 | adds exactly 360 to every negative angle and leaves the rest unchanged; the result is non-negative exactly when the angle is at least -360, and below 360 exactly when the angle is |
| `Euler.XSine` | AssetStudio/Math/Quaternion.cs:90 | the sine argument of the X angle is `2·X·W` whenever Y or Z is 0 |
| `Euler.XCosine` | AssetStudio/Math/Quaternion.cs:90 | for a unit quaternion the cosine argument of the X angle is the rotation-matrix entry `W² + Y² - X² - Z²` |
| `Euler.YSine` | AssetStudio/Math/Quaternion.cs:91 | the sine argument of the Y angle is that of X with X and Y swapped, and is `2·Y·W` whenever X or Z is 0 |
| `Euler.YCosine` | AssetStudio/Math/Quaternion.cs:91 | the cosine argument of the Y angle is that of X with X and Y swapped, and for a unit quaternion is `W² + X² - Y² - Z²` |
| `Euler.RawX` | AssetStudio/Math/Quaternion.cs:90 | for a unit rotation about X alone, the raw X angle is `Rad2Deg·atan2(2·X·W, W² - X²)`, which, for the real atan2, is the rotation angle in degrees |
| `Euler.RawY` | AssetStudio/Math/Quaternion.cs:91 | the raw Y angle is the raw X angle of the quaternion with X and Y swapped; for a unit rotation about Y alone it is `Rad2Deg·atan2(2·Y·W, W² - Y²)` |
| `Euler.RawZ` | AssetStudio/Math/Quaternion.cs:92 | the raw Z angle is unchanged when all four components are negated, and in the general branch `asin` receives an argument strictly inside (-1, 1) |
| `Euler.ToEuler` | AssetStudio/Math/Quaternion.cs:69-99 | north pole gives (0, 2·atan2(X, W), pi/2) and south pole gives (0, -2·atan2(X, W), -pi/2), with no degree conversion or adjustment; in the general branch each component is its raw degree value exactly when that is non-negative, and that value plus 360 exactly when it is negative |
| `Euler.ArgumentsIgnoreSign` | AssetStudio/Math/Quaternion.cs:90-91 | every `atan2` argument of the general branch is unchanged when all four components are negated |
| `Euler.GeneralBranchIgnoresSign` | AssetStudio/Math/Quaternion.cs:69-99 | q and -q take the same branch, and in the general branch they convert to the same angles (unlike `==`, which does not equate them) |
| `Euler.GeneralBranchRange` | AssetStudio/Math/Quaternion.cs:94-96 | a general-branch component lands in [0, 360) exactly when its raw degree value is in [-360, 360); no further wrapping happens |
| `Euler.GeneralBranchAsinArgumentInDomain` | AssetStudio/Math/Quaternion.cs:73-92 | in the general branch the argument passed to `asin` is twice the test value and so lies strictly inside (-1, 1) |
| `Euler.IdentityToEuler` | AssetStudio/Math/Quaternion.cs:69-99 | the identity (0, 0, 0, 1) takes the general branch and converts to (0, 0, 0), given atan2(0, 1) = asin(0) = 0 |
| `Euler.HalvesTakeNorthPole` | AssetStudio/Math/Quaternion.cs:73-80 | (0.5, 0.5, 0.5, 0.5) has test value 0.5, takes the north branch and returns X = 0 and Z = pi/2 in radians |
| `Euler.PolesMirror` | AssetStudio/Math/Quaternion.cs:75-87 | negating X and Z turns a north-pole input into a south-pole one; when atan2 is odd in its first argument, the result has the same Y and the opposite Z |

## Left out

- IEEE-754 single-precision arithmetic is not modelled. This covers rounding,
  the `(float)` casts in `QuaternionToEuler`, float-to-double promotion,
  infinities and NaN propagation. All arithmetic is over `real`. So
  `kEpsilon`, `Rad2Deg` and the 0.499 threshold are their decimal literals,
  not the nearest float or double.
- `Math.Atan2`, `Math.Asin` and `Math.PI` are parameters with no properties
  of their own. No lemma depends on their ranges.
- `float.GetHashCode` and `float.Equals` are parameters. Their behaviour on
  NaN and on positive and negative zero is not fixed.
- `Euler.GeneralBranchRange`: the upper bound 360 holds only over `real`.
  In the source, `result.X += 360` (line 94) is a `float` addition. A raw
  angle just below 0, e.g. about -1.15e-5 degrees for `(-1e-7, 0, 0, 1)`,
  rounds up to exactly 360.0f, which lies outside [0, 360).
- `Euler.AddTurnIfNegative`: "below 360 exactly when the angle is" holds
  only over `real`, for the same float-rounding reason.
- `Vector3` is not part of this model. It appears only as a plain
  three-field record.
- The `StructLayout` attribute (line 6) is left out. Memory layout and
  packing are interop concerns with no observable effect here.
- Concurrent use of the setter on one instance is left out. The source does
  no locking, and the model has no shared state.
