/** Vector3 arithmetic as the scenes use it (three.js Vector3), over exact
    reals, and the browser's Math functions the scenes call.

    Math.sqrt, Math.atan2 and Math.cos are not computable over the reals, so
    they are carried as the fields of a MathLib value that every caller passes
    in.  Nothing is assumed about them except, where a lemma needs it, the
    square-root law stated by Lawful. */
module Vectors {

  datatype Vec3 = Vec3(x: real, y: real, z: real)

  const Zero: Vec3 := Vec3(0.0, 0.0, 0.0)

  function Add(a: Vec3, b: Vec3): Vec3 {
    Vec3(a.x + b.x, a.y + b.y, a.z + b.z)
  }

  function Sub(a: Vec3, b: Vec3): Vec3 {
    Vec3(a.x - b.x, a.y - b.y, a.z - b.z)
  }

  /** Vector3.multiplyScalar */
  function Scale(a: Vec3, s: real): Vec3 {
    Vec3(a.x * s, a.y * s, a.z * s)
  }

  function Dot(a: Vec3, b: Vec3): real {
    a.x * b.x + a.y * b.y + a.z * b.z
  }

  /** Vector3.crossVectors(a, b) */
  function Cross(a: Vec3, b: Vec3): Vec3 {
    Vec3(a.y * b.z - a.z * b.y, a.z * b.x - a.x * b.z, a.x * b.y - a.y * b.x)
  }

  function LengthSq(a: Vec3): real {
    Dot(a, a)
  }

  /** The library functions the scenes call, left uninterpreted. */
  datatype MathLib = MathLib(sqrt: real -> real, atan2: (real, real) -> real, cos: real -> real)

  /** The properties of the library the proofs use: the square-root law, and
      that a non-zero vector has a non-zero length (which the law implies over
      the reals, and which is stated here so that proofs need not derive it). */
  ghost predicate Lawful(lib: MathLib) {
    && (forall x :: x >= 0.0 ==> lib.sqrt(x) >= 0.0 && lib.sqrt(x) * lib.sqrt(x) == x)
    && (forall v :: v != Zero ==> lib.sqrt(LengthSq(v)) > 0.0)
  }

  /** Vector3.length: Math.sqrt(x*x + y*y + z*z) */
  function Length(a: Vec3, lib: MathLib): real {
    lib.sqrt(LengthSq(a))
  }

  /** Vector3.normalize: divides by `length() || 1`, so the zero vector stays zero. */
  function Normalize(a: Vec3, lib: MathLib): Vec3 {
    var len := Length(a, lib);
    Scale(a, 1.0 / (if len == 0.0 then 1.0 else len))
  }

  /** Vector3.reflect(normal): v - 2 (v . n) n */
  function Reflect(v: Vec3, n: Vec3): Vec3 {
    Sub(v, Scale(n, 2.0 * Dot(v, n)))
  }

  /** Math.max and Math.min on reals. */
  function Max(a: real, b: real): (r: real)
    ensures r >= a && r >= b && (r == a || r == b)
  {
    if a >= b then a else b
  }

  function Min(a: real, b: real): (r: real)
    ensures r <= a && r <= b && (r == a || r == b)
  {
    if a <= b then a else b
  }

  function Abs(a: real): (r: real)
    ensures r >= 0.0 && (r == a || r == -a)
  {
    if a < 0.0 then -a else a
  }

  lemma MulPositive(a: real, b: real)
    requires a > 0.0 && b > 0.0
    ensures a * b > 0.0
  {
  }

  lemma SquareStrictlyMonotone(a: real, b: real)
    requires 0.0 <= b < a
    ensures b * b < a * a
  {
    MulPositive(a - b, a + b);
    assert a * a - b * b == (a - b) * (a + b);
  }

  lemma LengthSqNonNegative(a: Vec3)
    ensures LengthSq(a) >= 0.0
  {
    assert a.x * a.x >= 0.0 && a.y * a.y >= 0.0 && a.z * a.z >= 0.0;
  }

  /** The square-root law at one point. */
  lemma SqrtLaw(lib: MathLib, x: real)
    requires Lawful(lib) && x >= 0.0
    ensures lib.sqrt(x) >= 0.0 && lib.sqrt(x) * lib.sqrt(x) == x
  {
  }

  /** The square root of a square is the (non-negative) number itself. */
  lemma SqrtOfSquare(lib: MathLib, c: real)
    requires Lawful(lib)
    requires c >= 0.0
    ensures lib.sqrt(c * c) == c
  {
    var r := lib.sqrt(c * c);
    assert c * c >= 0.0;
    assert r >= 0.0 && r * r == c * c;
    if r > c {
      SquareStrictlyMonotone(r, c);
    } else if r < c {
      SquareStrictlyMonotone(c, r);
    }
  }

  /** A length is non-negative, squares to LengthSq, and is zero exactly for the zero vector. */
  lemma LengthLaw(a: Vec3, lib: MathLib)
    requires Lawful(lib)
    ensures Length(a, lib) >= 0.0
    ensures Length(a, lib) * Length(a, lib) == LengthSq(a)
    ensures Length(a, lib) == 0.0 <==> a == Zero
  {
    LengthSqNonNegative(a);
    SqrtOfSquare(lib, 0.0);
  }

  lemma ScaleLengthSq(a: Vec3, s: real)
    ensures LengthSq(Scale(a, s)) == s * s * LengthSq(a)
  {
  }

  lemma ScaleTwice(a: Vec3, s: real, t: real)
    ensures Scale(Scale(a, s), t) == Scale(a, s * t)
  {
  }

  lemma InverseTimes(l: real, s: real)
    requires l != 0.0
    ensures (1.0 / l) * s == s / l
  {
  }

  lemma InverseSquare(l: real)
    requires l != 0.0
    ensures (1.0 / l) * (1.0 / l) * (l * l) == 1.0
  {
    assert (1.0 / l) * l == 1.0;
  }

  /** Normalising a non-zero vector gives a unit vector pointing the same way. */
  lemma NormalizeUnit(a: Vec3, lib: MathLib)
    requires Lawful(lib)
    requires a != Zero
    ensures LengthSq(Normalize(a, lib)) == 1.0
    ensures Normalize(a, lib) == Scale(a, 1.0 / Length(a, lib))
  {
    LengthSqNonNegative(a);
    var len := Length(a, lib);
    assert len * len == LengthSq(a);
    assert Normalize(a, lib) == Scale(a, 1.0 / len);
    ScaleLengthSq(a, 1.0 / len);
    InverseSquare(len);
  }

  /** For s >= 0, `normalize().multiplyScalar(s)` gives a non-zero a the length s ... */
  lemma RescaleLength(a: Vec3, s: real, lib: MathLib)
    requires Lawful(lib)
    requires a != Zero && s >= 0.0
    ensures LengthSq(Scale(Normalize(a, lib), s)) == s * s
    ensures Length(Scale(Normalize(a, lib), s), lib) == s
  {
    var n := Normalize(a, lib);
    NormalizeUnit(a, lib);
    UnitRescaled(n, s);
    SqrtOfSquare(lib, s);
  }

  lemma UnitRescaled(n: Vec3, s: real)
    requires LengthSq(n) == 1.0
    ensures LengthSq(Scale(n, s)) == s * s
  {
    ScaleLengthSq(n, s);
  }

  /** ... and it points the same way as a: it is a multiple s / |a| of a. */
  lemma RescaleDirection(a: Vec3, s: real, lib: MathLib)
    requires Lawful(lib)
    requires a != Zero
    ensures Length(a, lib) > 0.0
    ensures Scale(Normalize(a, lib), s) == Scale(a, s / Length(a, lib))
  {
    var len := Length(a, lib);
    NormalizeUnit(a, lib);
    InverseRescaled(a, len, s);
  }

  lemma InverseRescaled(a: Vec3, len: real, s: real)
    requires len != 0.0
    ensures Scale(Scale(a, 1.0 / len), s) == Scale(a, s / len)
  {
    ScaleTwice(a, 1.0 / len, s);
    InverseTimes(len, s);
  }

  /** The zero vector normalises (and rescales) to itself. */
  lemma NormalizeZero(lib: MathLib, s: real)
    ensures Scale(Normalize(Zero, lib), s) == Zero
  {
  }

  /** Reflecting about the zero vector changes nothing. */
  lemma ReflectZero(v: Vec3)
    ensures Reflect(v, Zero) == v
  {
  }

  /** Reflection about a unit normal negates the normal component, keeps the
      tangential component and so keeps the length. */
  lemma ReflectLaw(v: Vec3, n: Vec3)
    requires LengthSq(n) == 1.0
    ensures Dot(Reflect(v, n), n) == -Dot(v, n)
    ensures Sub(Reflect(v, n), Scale(n, Dot(Reflect(v, n), n))) == Sub(v, Scale(n, Dot(v, n)))
    ensures LengthSq(Reflect(v, n)) == LengthSq(v)
  {
    var d := Dot(v, n);
    var c := 2.0 * d;
    var r := Reflect(v, n);
    assert r == Sub(v, Scale(n, c));
    SubScaledDot(v, n, c);
    assert Dot(r, n) == -d;
    ReflectTangent(v, n, d);
    SubScaledLengthSq(v, n, c);
    assert c * c * LengthSq(n) == c * c;
    assert 2.0 * c * d == c * c;
  }

  lemma ReflectTangent(v: Vec3, n: Vec3, d: real)
    ensures Sub(Sub(v, Scale(n, 2.0 * d)), Scale(n, -d)) == Sub(v, Scale(n, d))
  {
  }

  lemma SubScaledDot(v: Vec3, n: Vec3, c: real)
    ensures Dot(Sub(v, Scale(n, c)), n) == Dot(v, n) - c * LengthSq(n)
  {
  }

  lemma SubScaledLengthSq(v: Vec3, n: Vec3, c: real)
    ensures LengthSq(Sub(v, Scale(n, c))) == LengthSq(v) - 2.0 * c * Dot(v, n) + c * c * LengthSq(n)
  {
  }
}
