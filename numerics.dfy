/**
 * Numbers as the Python code uses them: three-component points, the
 * trigonometric library the code calls (supplied by the caller, since
 * Dafny has no sine or square root), and the integer conversions
 * `int(x)` (truncation toward zero) and `round(x)` (half to even).
 */
module Numerics {

  /** A point or vector `[x, y, z]`. */
  datatype Vec3 = Vec3(x: real, y: real, z: real)

  /** A point in a projection plane, e.g. the `(x, z)` of a pad vertex. */
  datatype Vec2 = Vec2(u: real, v: real)

  function Add(p: Vec3, q: Vec3): Vec3
  {
    Vec3(p.x + q.x, p.y + q.y, p.z + q.z)
  }

  function Scale(t: real, p: Vec3): Vec3
  {
    Vec3(t * p.x, t * p.y, t * p.z)
  }

  const Origin: Vec3 := Vec3(0.0, 0.0, 0.0)

  /** Dividing by a non-zero number and multiplying back gives the number. */
  lemma DivTimes(a: real, b: real)
    requires b != 0.0
    ensures a / b * b == a
  {
  }

  lemma ScaleDistributes(t: real, p: Vec3, q: Vec3)
    ensures Scale(t, Add(p, q)) == Add(Scale(t, p), Scale(t, q))
  {
  }

  lemma ScaleTwice(a: real, b: real, p: Vec3)
    ensures Scale(a, Scale(b, p)) == Scale(a * b, p)
  {
  }

  lemma ScaleInverse(n: real, p: Vec3)
    requires n != 0.0
    ensures Scale(1.0 / n, Scale(n, p)) == p
  {
    ScaleTwice(1.0 / n, n, p);
    assert (1.0 / n) * n == 1.0;
  }

  lemma ScaleSucc(n: real, p: Vec3)
    ensures Scale(n + 1.0, p) == Add(Scale(n, p), p)
  {
  }

  /** Component `k` of a point, for the axis indices 0, 1, 2 the code uses. */
  function Coord(p: Vec3, k: nat): real
  {
    if k == 0 then p.x else if k == 1 then p.y else p.z
  }

  /**
   * The mathematical library (`np.sin`, `np.cos`, `np.sqrt`, `np.pi`) as
   * uninterpreted functions supplied by the caller.
   */
  datatype Math = Math(sin: real -> real, cos: real -> real, sqrt: real -> real, pi: real)

  /** The only facts about the library the proofs rely on. */
  predicate Sound(m: Math)
  {
    m.sin(0.0) == 0.0 && m.cos(0.0) == 1.0
  }

  /** `sin(pi/n)` is non-zero, as it is for every true sine and `n >= 2`. */
  predicate SineNonZeroAt(m: Math, n: int)
  {
    n != 0 && m.sin(m.pi / n as real) != 0.0
  }

  /**
   * The divisors the pad layouts use are non-zero: `sin(pi/3)` for the
   * triangle radius and `sqrt(3)` for the row offsets.
   */
  predicate NonDegenerate(m: Math)
  {
    SineNonZeroAt(m, 3) && m.sqrt(3.0) != 0.0
  }

  /** The degree-to-radian factor the rotations are written with. */
  const DegToRad: real := 0.0174533

  /** Python `int(x)` for a finite float: truncation toward zero. */
  function Trunc(x: real): (r: int)
    ensures 0.0 <= x ==> 0 <= r && r as real <= x < r as real + 1.0
    ensures x < 0.0 ==> r <= 0 && r as real - 1.0 < x <= r as real
  {
    if x >= 0.0 then x.Floor else -((-x).Floor)
  }

  /** Python `round(x)` for a finite float: nearest integer, ties to even. */
  function RoundHalfEven(x: real): (r: int)
    ensures -0.5 <= r as real - x <= 0.5
    ensures r as real - x == 0.5 || x - r as real == 0.5 ==> r % 2 == 0
  {
    var f := x.Floor;
    var d := x - f as real;
    if d < 0.5 then f
    else if d > 0.5 then f + 1
    else if f % 2 == 0 then f
    else f + 1
  }

  /** Python `math.floor` / `np.floor` to an integer. */
  function Floor(x: real): (r: int)
    ensures r as real <= x < r as real + 1.0
  {
    x.Floor
  }

  /** Python `math.ceil` / `np.ceil` to an integer. */
  function Ceil(x: real): (r: int)
    ensures r as real - 1.0 < x <= r as real
  {
    if x.Floor as real == x then x.Floor else x.Floor + 1
  }

  function Abs(x: real): real
  {
    if x < 0.0 then -x else x
  }

  function Max(a: int, b: int): int
  {
    if a < b then b else a
  }

  /** Python `sum(xs)`, accumulated left to right. */
  function SumReals(s: seq<real>): real
  {
    if s == [] then 0.0 else SumReals(s[..|s| - 1]) + s[|s| - 1]
  }

  /** Python `max(xs)`. */
  function SeqMax(zs: seq<real>): (r: real)
    requires zs != []
    ensures r in zs && forall k :: 0 <= k < |zs| ==> zs[k] <= r
  {
    if |zs| == 1 then zs[0]
    else
      var rest := SeqMax(zs[..|zs| - 1]);
      assert forall k :: 0 <= k < |zs| - 1 ==> zs[..|zs| - 1][k] == zs[k];
      if zs[|zs| - 1] > rest then zs[|zs| - 1] else rest
  }

  /** Python `min(xs)`. */
  function SeqMin(zs: seq<real>): (r: real)
    requires zs != []
    ensures r in zs && forall k :: 0 <= k < |zs| ==> r <= zs[k]
  {
    if |zs| == 1 then zs[0]
    else
      var rest := SeqMin(zs[..|zs| - 1]);
      assert forall k :: 0 <= k < |zs| - 1 ==> zs[..|zs| - 1][k] == zs[k];
      if zs[|zs| - 1] < rest then zs[|zs| - 1] else rest
  }
}
